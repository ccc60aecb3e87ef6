/** `SimplePageProvider`, the page oracle the tests run the system against: a fixed
    data set 1...100 served `pageSize` elements at a time, the dependency being the
    number of elements already accumulated. */
module PageProviders {
  import opened PaginationModel

  /** The error value the tests use (`String.outOfBounds`). */
  const OutOfBounds: string := "Out of Bounds"

  /** The closed range `lo...hi` as a sequence (empty when `hi == lo - 1`). */
  function Range(lo: int, hi: int): (r: seq<int>)
    requires lo <= hi + 1
    ensures |r| == hi - lo + 1
    ensures forall i :: 0 <= i < |r| ==> r[i] == lo + i
  {
    seq(hi - lo + 1, i => lo + i)
  }

  /** Adjacent ranges join into one. */
  lemma RangeConcat(lo: int, mid: int, hi: int)
    requires lo <= mid + 1 && mid <= hi
    ensures Range(lo, mid) + Range(mid + 1, hi) == Range(lo, hi)
  {
  }

  /** The provider's data set, `(1...100).map { $0 }`. */
  function Data(): (d: seq<int>)
    ensures |d| == 100
    ensures forall i :: 0 <= i < |d| ==> d[i] == i + 1
  {
    Range(1, 100)
  }

  /** `getPage(accumulatedCount:)` for a provider with page size `pageSize`. The guard
      refuses a request unless the page ends strictly before the end of the data; the
      slice traps on a negative bound, so the caller must not ask for one where the
      guard lets the request through. */
  function GetPage(pageSize: int, accumulatedCount: int): (r: Result<Page<int, int>, string>)
    requires accumulatedCount + pageSize >= |Data()| || (0 <= accumulatedCount && 0 <= pageSize)
    ensures r.Failure? <==> accumulatedCount + pageSize >= 100
    ensures r.Failure? ==> r.error == OutOfBounds
    ensures r.Ok? ==>
      r.value.nextDependency == Some(accumulatedCount + pageSize) &&
      r.value.elements == Range(accumulatedCount + 1, accumulatedCount + pageSize)
  {
    if !(accumulatedCount + pageSize < |Data()|) then Failure(OutOfBounds)
    else Ok(Page(Some(accumulatedCount + pageSize), Data()[accumulatedCount..accumulatedCount + pageSize]))
  }

  /** A page ending exactly at the end of the data is refused, so with a positive
      page size the last element, 100, is never served. */
  lemma LastElementNeverServed(pageSize: int, accumulatedCount: int)
    requires 0 <= accumulatedCount && 0 < pageSize
    ensures accumulatedCount + pageSize == 100 ==> GetPage(pageSize, accumulatedCount).Failure?
    ensures GetPage(pageSize, accumulatedCount).Ok? ==>
      100 !in GetPage(pageSize, accumulatedCount).value.elements
  {
  }

  /** Pages fetched at the dependency each page returns continue one another: the
      accumulated elements `1...n` followed by the page at `n` are `1...n + pageSize`. */
  lemma PagesContinue(pageSize: int, n: int)
    requires 0 <= n && 0 <= pageSize && n + pageSize < 100
    ensures GetPage(pageSize, n).Ok?
    ensures Range(1, n) + GetPage(pageSize, n).value.elements == Range(1, n + pageSize)
  {
    RangeConcat(1, n, n + pageSize);
  }
}
