/** The values of one pagination session: the page a fetch returns, the state that
    observers see, the events that change it, and the reducer that folds those events
    into the state, one at a time.

    `C` is the page dependency (the cursor needed to fetch a page), `E` the element
    type and `Err` the type of a page-fetch failure. */
module PaginationModel {

  datatype Option<+T> = None | Some(value: T)

  /** Outcome of one call of a page provider. */
  datatype Result<+T, +Err> = Ok(value: T) | Failure(error: Err)

  /** One fetch's worth of elements, in provider order, and the dependency for the
      following fetch; `None` means there is no more data. */
  datatype Page<C, E> = Page(nextDependency: Option<C>, elements: seq<E>)

  /** The externally observed snapshot of a pagination session. */
  datatype PaginationState<C, E, Err> = PaginationState(
    isLoading: bool,
    nextDependency: Option<C>,
    elements: seq<E>,
    error: Option<Err>)

  /** The inputs of the reducer: an accepted load-more trigger (`.loadNext`) or the
      outcome of a page fetch (`.page(.success)` / `.page(.failure)`). */
  datatype Event<C, E, Err> = LoadNext | PageOk(page: Page<C, E>) | PageErr(err: Err)

  /** The state a session is seeded with (`.init(nextDependency:)`): it is already
      loading, so the first page is fetched without a trigger. */
  function Seed<C, E, Err>(initialDependency: C): (s: PaginationState<C, E, Err>)
    ensures s.isLoading && s.nextDependency == Some(initialDependency)
    ensures s.elements == [] && s.error == None
  {
    PaginationState(true, Some(initialDependency), [], None)
  }

  /** `PaginationState.reduce`. A trigger starts loading; a page ends loading, moves
      the dependency to the page's and appends its elements; a failure ends loading
      and records the error without touching the dependency or the elements.
      The body also clears `error` on a page and keeps it on a trigger; the contract
      does not promise either. */
  function Reduce<C, E, Err>(s: PaginationState<C, E, Err>, e: Event<C, E, Err>): (r: PaginationState<C, E, Err>)
    ensures e.LoadNext? ==>
      r.isLoading && r.nextDependency == s.nextDependency && r.elements == s.elements
    ensures e.PageOk? ==>
      !r.isLoading && r.nextDependency == e.page.nextDependency &&
      r.elements == s.elements + e.page.elements &&
      |r.elements| == |s.elements| + |e.page.elements|
    ensures e.PageErr? ==>
      !r.isLoading && r.error == Some(e.err) &&
      r.nextDependency == s.nextDependency && r.elements == s.elements
  {
    match e
    case LoadNext => s.(isLoading := true)
    case PageOk(page) =>
      s.(isLoading := false, nextDependency := page.nextDependency,
         elements := s.elements + page.elements, error := None)
    case PageErr(err) => s.(isLoading := false, error := Some(err))
  }

  /** The `loadNextPage` lens: the dependency a fetch must run for, if any. A fetch runs
      exactly while the state is loading and has a dependency to fetch with. */
  function LoadNextPage<C, E, Err>(s: PaginationState<C, E, Err>): (d: Option<C>)
    ensures d.Some? <==> s.isLoading && s.nextDependency.Some?
    ensures d.Some? ==> d == s.nextDependency
  {
    if s.isLoading then s.nextDependency else None
  }

  /** The state reached by reducing `evs` one at a time, in order, from `s`. */
  function Fold<C, E, Err>(s: PaginationState<C, E, Err>, evs: seq<Event<C, E, Err>>): (r: PaginationState<C, E, Err>)
    decreases |evs|
  {
    if evs == [] then s else Fold(Reduce(s, evs[0]), evs[1..])
  }

  /** The states observed while `evs` are reduced from `s`: one per event, each the
      reduction of its predecessor (or of `s`) by that event. */
  function Scan<C, E, Err>(s: PaginationState<C, E, Err>, evs: seq<Event<C, E, Err>>): (states: seq<PaginationState<C, E, Err>>)
    ensures |states| == |evs|
    ensures forall i :: 0 <= i < |evs| ==>
      states[i] == Reduce(if i == 0 then s else states[i - 1], evs[i])
    ensures evs != [] ==> states[|evs| - 1] == Fold(s, evs)
    decreases |evs|
  {
    if evs == [] then [] else [Reduce(s, evs[0])] + Scan(Reduce(s, evs[0]), evs[1..])
  }

  /** The elements of all pages carried by `evs`, in event order. */
  function Fetched<C, E, Err>(evs: seq<Event<C, E, Err>>): (es: seq<E>)
    decreases |evs|
  {
    if evs == [] then []
    else (if evs[0].PageOk? then evs[0].page.elements else []) + Fetched(evs[1..])
  }

  /** Within a session nothing is lost or duplicated: the accumulated elements are the
      starting elements followed by every fetched page's elements, in order. */
  lemma {:induction false} FoldAccumulates<C, E, Err>(s: PaginationState<C, E, Err>, evs: seq<Event<C, E, Err>>)
    ensures Fold(s, evs).elements == s.elements + Fetched(evs)
    decreases |evs|
  {
    if evs != [] {
      var s1 := Reduce(s, evs[0]);
      FoldAccumulates(s1, evs[1..]);
      assert s1.elements == s.elements + (if evs[0].PageOk? then evs[0].page.elements else []);
    }
  }

  /** Each observed state's elements extend the previous state's elements. */
  lemma ScanOnlyAppends<C, E, Err>(s: PaginationState<C, E, Err>, evs: seq<Event<C, E, Err>>, i: nat)
    requires i < |evs|
    ensures var states := Scan(s, evs);
      var before := if i == 0 then s.elements else states[i - 1].elements;
      before <= states[i].elements
  {
  }

  lemma {:induction false} FoldAppend<C, E, Err>(s: PaginationState<C, E, Err>, a: seq<Event<C, E, Err>>, b: seq<Event<C, E, Err>>)
    ensures Fold(s, a + b) == Fold(Fold(s, a), b)
    decreases |a|
  {
    if a != [] {
      assert (a + b)[0] == a[0];
      assert (a + b)[1..] == a[1..] + b;
      FoldAppend(Reduce(s, a[0]), a[1..], b);
    } else {
      assert a + b == b;
    }
  }

  /** Reducing two runs of events one after the other observes the states of the
      first run, then those of the second started where the first ended. */
  lemma {:induction false} ScanAppend<C, E, Err>(s: PaginationState<C, E, Err>, a: seq<Event<C, E, Err>>, b: seq<Event<C, E, Err>>)
    ensures Scan(s, a + b) == Scan(s, a) + Scan(Fold(s, a), b)
    decreases |a|
  {
    if a != [] {
      assert (a + b)[0] == a[0];
      assert (a + b)[1..] == a[1..] + b;
      ScanAppend(Reduce(s, a[0]), a[1..], b);
    } else {
      assert a + b == b;
    }
  }
}
