/**
 * `TodoRepository.getAll`: one `$facet` aggregation over the collection,
 * with a `data` branch (`$skip` then `$limit`) and a `count` branch
 * (`$count`), shaped into `{next_page, prev_page, count, data}`.
 *
 * The collection is a sequence in natural (insertion) order. The store
 * rejects the pipeline when `$skip` is not a non-negative integer or
 * `$limit` is not a positive integer (including NaN); that rejection is
 * the `Failure` case.
 */
module TodoRepository {
  import opened Wrappers
  import opened Js

  datatype Todo = Todo(id: string, title: string, description: string, completed: bool)

  /** The first (and only) document of the aggregation result. */
  datatype Facet = Facet(data: Option<seq<Todo>>, count: seq<nat>)

  datatype Page = Page(nextPage: string, prevPage: string, count: nat, data: seq<Todo>)

  datatype StoreError = InvalidSkip | InvalidLimit

  /** `(page - 1) * limit` in Number arithmetic: NaN stays NaN. */
  function Offset(page: Num, limit: Num): (off: Num)
    ensures off.Int? <==> page.Int? && limit.Int?
    ensures off.Int? ==> off.i == (page.i - 1) * limit.i
  {
    if page.Int? && limit.Int? then Int((page.i - 1) * limit.i) else NaN
  }

  function Min(a: int, b: int): int {
    if a <= b then a else b
  }

  /** The records left after skipping `skip` and keeping at most `take`. */
  function Window(store: seq<Todo>, skip: nat, take: nat): (w: seq<Todo>)
    ensures |w| <= take
    ensures |w| == Min(take, if skip <= |store| then |store| - skip else 0)
    ensures forall i :: 0 <= i < |w| ==> w[i] == store[skip + i]
  {
    store[Min(skip, |store|)..Min(skip + take, |store|)]
  }

  /**
   * What the store answers for the pipeline: the window of records, and a
   * count document `{title: n}` unless the collection is empty, in which
   * case `$count` emits nothing.
   */
  function Aggregate(store: seq<Todo>, skip: Num, limit: Num): (r: Result<Facet, StoreError>)
    ensures r.Success? <==> skip.Int? && skip.i >= 0 && limit.Int? && limit.i > 0
  {
    if !(skip.Int? && skip.i >= 0) then Failure(InvalidSkip)
    else if !(limit.Int? && limit.i > 0) then Failure(InvalidLimit)
    else Success(Facet(Some(Window(store, skip.i, limit.i)), if |store| == 0 then [] else [|store|]))
  }

  /** `count: count[0]?.title || 0` and `data: data || []`, with empty page links. */
  function ShapeResult(f: Facet): (p: Page)
    ensures p.nextPage == "" && p.prevPage == ""
    ensures f.count == [] ==> p.count == 0
    ensures f.count != [] ==> p.count == f.count[0]
    ensures f.data.None? ==> p.data == []
    ensures f.data.Some? ==> p.data == f.data.value
  {
    Page("", "", if f.count == [] then 0 else f.count[0], f.data.GetOr([]))
  }

  function GetAll(store: seq<Todo>, page: Num, limit: Num): (r: Result<Page, StoreError>)
    ensures r.Success? <==> page.Int? && limit.Int? && (page.i - 1) * limit.i >= 0 && limit.i > 0
    ensures r.Success? ==> r.value.count == |store|
    ensures r.Success? ==> |r.value.data| <= limit.i
    ensures r.Success? ==> r.value.nextPage == "" && r.value.prevPage == ""
  {
    match Aggregate(store, Offset(page, limit), limit)
    case Failure(e) => Failure(e)
    case Success(f) => Success(ShapeResult(f))
  }

  // ---------------------------------------------------------------------------
  // Properties

  /** Every page number from 1 and every limit from 1 is answered. */
  lemma ValidRequestsSucceed(store: seq<Todo>, page: int, limit: int)
    requires page >= 1 && limit >= 1
    ensures GetAll(store, Int(page), Int(limit)).Success?
  {
    assert (page - 1) * limit >= 0;
  }

  /**
   * The page holds the records at positions offset, offset + 1, ... in store
   * order, as many as the limit allows and the store still has.
   */
  lemma {:induction false} PageContents(store: seq<Todo>, page: int, limit: int)
    requires page >= 1 && limit >= 1
    ensures var off := (page - 1) * limit;
      var data := GetAll(store, Int(page), Int(limit)).value.data;
      && |data| == Min(limit, if off <= |store| then |store| - off else 0)
      && forall i :: 0 <= i < |data| ==> data[i] == store[off + i]
  {
    ValidRequestsSucceed(store, page, limit);
  }

  /** The count is the size of the collection whatever page and limit are asked for. */
  lemma CountIndependentOfWindow(store: seq<Todo>, p1: Num, l1: Num, p2: Num, l2: Num)
    requires GetAll(store, p1, l1).Success? && GetAll(store, p2, l2).Success?
    ensures GetAll(store, p1, l1).value.count == GetAll(store, p2, l2).value.count == |store|
  {
  }

  /** Asking past the end gives an empty page, not an error. */
  lemma PastTheEndIsEmpty(store: seq<Todo>, page: int, limit: int)
    requires page >= 1 && limit >= 1
    requires (page - 1) * limit >= |store|
    ensures GetAll(store, Int(page), Int(limit)) == Success(Page("", "", |store|, []))
  {
    ValidRequestsSucceed(store, page, limit);
  }

  /** Page 1 is the first min(limit, n) records in store order. */
  lemma FirstPage(store: seq<Todo>, limit: int)
    requires limit >= 1
    ensures GetAll(store, Int(1), Int(limit)).value.data == store[..Min(limit, |store|)]
  {
  }

  /**
   * 3 stored records, page 1, limit 10: count 3 and all 3 records. This is
   * what the repository test for three records expects; the test itself
   * passes no page (see MissingPageRejected), so page 1 stands in for it.
   */
  lemma ThreeRecords(store: seq<Todo>)
    requires |store| == 3
    ensures GetAll(store, Int(1), Int(10)) == Success(Page("", "", 3, store))
  {
    FirstPage(store, 10);
    assert store[..3] == store;
  }

  /**
   * Without a page the offset is `(undefined - 1) * limit`, which is NaN,
   * and the store rejects the request whatever the limit.
   */
  lemma MissingPageRejected(store: seq<Todo>, limit: Num)
    ensures GetAll(store, NaN, limit) == Failure(InvalidSkip)
  {
  }

  /** The empty-facet defaults: no count document gives 0 and no data gives []. */
  lemma EmptyFacetDefaults()
    ensures ShapeResult(Facet(None, [])) == Page("", "", 0, [])
  {
  }

  /**
   * Page 0 passes the pagination middleware (its test is `page < 0`) but
   * makes a negative `$skip`, which the store rejects.
   */
  lemma PageZeroRejectedByStore(store: seq<Todo>, limit: int)
    requires limit >= 1
    ensures GetAll(store, Int(0), Int(limit)) == Failure(InvalidSkip)
  {
  }

  /** A limit of 0 passes the middleware but the store rejects `$limit: 0`. */
  lemma LimitZeroRejectedByStore(store: seq<Todo>, page: int)
    requires page >= 1
    ensures GetAll(store, Int(page), Int(0)) == Failure(InvalidLimit)
  {
  }

  /** The data of pages 1 .. k, concatenated. */
  function PagesUpTo(store: seq<Todo>, limit: int, k: nat): seq<Todo>
    requires limit >= 1
  {
    if k == 0 then []
    else (ValidRequestsSucceed(store, k, limit);
          PagesUpTo(store, limit, k - 1) + GetAll(store, Int(k), Int(limit)).value.data)
  }

  /** Consecutive pages tile the collection: pages 1 .. k together are its first k * limit records. */
  lemma {:induction false} PagesTileTheStore(store: seq<Todo>, limit: int, k: nat)
    requires limit >= 1
    ensures PagesUpTo(store, limit, k) == store[..Min(k * limit, |store|)]
  {
    if k > 0 {
      PagesTileTheStore(store, limit, k - 1);
      ValidRequestsSucceed(store, k, limit);
      var off := (k - 1) * limit;
      assert k * limit == off + limit;
      var data := GetAll(store, Int(k), Int(limit)).value.data;
      assert data == store[Min(off, |store|)..Min(off + limit, |store|)];
      assert store[..Min(off, |store|)] + data == store[..Min(off + limit, |store|)];
    }
  }
}
