/**
 * The paginated listing both tables (consumers, merchants) implement: the
 * fetch effect keyed on the page and page size, the pagination handlers,
 * the query-result handler, and the loading/error/table precedence.
 */
module Listing {
  import opened Wrappers

  /** The listing's state hooks; `R` is the row type. */
  datatype ListingState<R> = ListingState(
    rows: seq<R>,
    loading: bool,
    error: Option<string>,
    page: nat,
    rowsPerPage: nat,
    totalCount: nat,
    isQueryMode: bool)

  /**
   * The hooks' initial values: the page shows the spinner until the first
   * fetch, which asks for the first ten rows.
   */
  function Initial<R>(): (st: ListingState<R>)
    ensures Render(st) == Spinner
    ensures st.rows == [] && st.error == None && !st.isQueryMode
    ensures RequestFor(st.page, st.rowsPerPage) == PageRequest(10, 0)
  {
    ListingState([], true, None, 0, 10, 0, false)
  }

  /** The `limit` and `offset` query parameters of a page request. */
  datatype PageRequest = PageRequest(limit: nat, offset: nat)

  /** The request for a page: `limit = rowsPerPage`, `offset = page * rowsPerPage`. */
  function RequestFor(page: nat, rowsPerPage: nat): (req: PageRequest)
    ensures req.limit == rowsPerPage
    ensures rowsPerPage > 0 ==> req.offset % req.limit == 0 && req.offset / req.limit == page
    ensures rowsPerPage == 0 ==> req.offset == 0
  {
    if rowsPerPage > 0 then
      OffsetDividesBack(page, rowsPerPage);
      PageRequest(rowsPerPage, page * rowsPerPage)
    else
      PageRequest(rowsPerPage, page * rowsPerPage)
  }

  /** A page's offset is a multiple of the page size, and dividing it back gives the page. */
  lemma OffsetDividesBack(page: nat, size: nat)
    requires size > 0
    ensures (page * size) % size == 0 && (page * size) / size == page
  {
    var q, m := (page * size) / size, (page * size) % size;
    assert (page - q) * size == m;
    MulGap(page - q, size);
  }

  /** A non-zero multiple of `size` is at least `size` away from zero. */
  lemma MulGap(d: int, size: int)
    requires size > 0
    ensures d == 0 || d * size >= size || d * size <= -size
  {
    if d >= 1 {
      assert d * size == (d - 1) * size + size;
    } else if d <= -1 {
      assert d * size == (d + 1) * size - size;
    }
  }

  /** How a page fetch ended: the decoded rows, or a failure (its cause is not shown). */
  datatype FetchOutcome<R> = Loaded(items: seq<R>) | HttpError(status: nat) | NetError(message: string)

  /**
   * The fetch effect run to completion with the request it sent: loading and
   * the error are reset first; then the rows and count are replaced, or the
   * fixed failure message is set; loading ends either way.
   */
  function Fetch<R>(st: ListingState<R>, outcome: FetchOutcome<R>, failureMessage: string): (r: (ListingState<R>, PageRequest))
    ensures r.1 == RequestFor(st.page, st.rowsPerPage)
    ensures !r.0.loading
    ensures r.0.page == st.page && r.0.rowsPerPage == st.rowsPerPage && r.0.isQueryMode == st.isQueryMode
    ensures outcome.Loaded? ==>
              r.0.rows == outcome.items && r.0.totalCount == |outcome.items| && r.0.error == None
    ensures !outcome.Loaded? ==>
              r.0.rows == st.rows && r.0.totalCount == st.totalCount && r.0.error == Some(failureMessage)
  {
    var started := st.(loading := true, error := None);
    var settled :=
      match outcome
      case Loaded(items) => started.(rows := items, totalCount := |items|)
      case _ => started.(error := Some(failureMessage));
    (settled.(loading := false), RequestFor(st.page, st.rowsPerPage))
  }

  /** `handleChangePage`: only the page changes, and the next request is for that page. */
  function ChangePage<R>(st: ListingState<R>, newPage: nat): (s: ListingState<R>)
    ensures s.page == newPage && s.(page := st.page) == st
    ensures FetchDue(st, s) <==> newPage != st.page
    ensures RequestFor(s.page, s.rowsPerPage) == PageRequest(st.rowsPerPage, newPage * st.rowsPerPage)
  {
    st.(page := newPage)
  }

  /** `handleChangeRowsPerPage`: the new page size, and back to the first page. */
  function ChangeRowsPerPage<R>(st: ListingState<R>, size: nat): (s: ListingState<R>)
    ensures s.rowsPerPage == size && s.page == 0
    ensures s.(page := st.page, rowsPerPage := st.rowsPerPage) == st
    ensures RequestFor(s.page, s.rowsPerPage) == PageRequest(size, 0)
  {
    st.(rowsPerPage := size, page := 0)
  }

  /** The fetch effect runs again exactly when the page or the page size changed. */
  predicate FetchDue<R>(before: ListingState<R>, after: ListingState<R>) {
    before.page != after.page || before.rowsPerPage != after.rowsPerPage
  }

  /** A truthy error text. */
  type ErrorText = s: string | s != "" witness "error"

  /** What the query handler receives: rows, or an object with a truthy `error`. */
  datatype QueryResult<R> = QueryRows(items: seq<R>) | QueryFailed(error: ErrorText)

  /**
   * `handleQueryResult`: an error result is ignored; rows replace the table,
   * the count becomes 1, query mode is entered and the error is cleared.
   */
  function AfterQueryResult<R>(st: ListingState<R>, result: QueryResult<R>): (s: ListingState<R>)
    ensures result.QueryFailed? ==> s == st
    ensures result.QueryRows? ==>
              && s.rows == result.items && s.totalCount == 1 && s.isQueryMode && s.error == None
              && s.loading == st.loading && s.page == st.page && s.rowsPerPage == st.rowsPerPage
    ensures result.QueryRows? && !st.loading ==> Render(s) == Table(result.items, None)
  {
    match result
    case QueryFailed(_) => st
    case QueryRows(items) => st.(rows := items, totalCount := 1, isQueryMode := true, error := None)
  }

  /** The page-size choices offered by the pagination control. */
  const RowsPerPageOptions: seq<nat> := [5, 10, 25, 50]

  datatype Pagination = Pagination(count: nat, page: nat, rowsPerPage: nat, options: seq<nat>)

  /**
   * What the listing shows. The table holds the stored rows; the cells each
   * row shows are given per row by the table's `CellsOf`
   * (`ConsumersListing.CellsOf`, `MerchantsListing.CellsOf`).
   */
  datatype View<R> = Spinner | ErrorAlert(text: string) | Table(rows: seq<R>, pagination: Option<Pagination>)

  /** The precedence: loading, then a truthy error, then the table (paginated unless in query mode). */
  function Render<R>(st: ListingState<R>): (v: View<R>)
    ensures v.Spinner? <==> st.loading
    ensures v.ErrorAlert? <==> !st.loading && st.error.Some? && st.error.value != ""
    ensures v.ErrorAlert? ==> v.text == st.error.value
    ensures v.Table? ==> v.rows == st.rows && (v.pagination.None? <==> st.isQueryMode)
    ensures v.Table? && v.pagination.Some? ==>
              v.pagination.value == Pagination(st.totalCount, st.page, st.rowsPerPage, RowsPerPageOptions)
  {
    if st.loading then Spinner
    else if st.error.Some? && st.error.value != "" then ErrorAlert(st.error.value)
    else Table(st.rows, if st.isQueryMode then None else Some(Pagination(st.totalCount, st.page, st.rowsPerPage, RowsPerPageOptions)))
  }

  // ---------------------------------------------------------------------
  // Properties
  // ---------------------------------------------------------------------

  /** Changing the page changes nothing else, and triggers a fetch exactly when the page differs. */
  lemma ChangePageOnlyPage<R>(st: ListingState<R>, newPage: nat)
    ensures ChangePage(st, newPage) == st.(page := newPage)
    ensures FetchDue(st, ChangePage(st, newPage)) <==> newPage != st.page
  {
  }

  /** Changing the page size always lands on page 0, keeping rows, count and mode. */
  lemma ChangeRowsPerPageResets<R>(st: ListingState<R>, size: nat)
    ensures var s := ChangeRowsPerPage(st, size);
            && s.page == 0 && s.rowsPerPage == size
            && s.rows == st.rows && s.totalCount == st.totalCount && s.isQueryMode == st.isQueryMode
            && s.loading == st.loading && s.error == st.error
            && (FetchDue(st, s) <==> st.page != 0 || st.rowsPerPage != size)
  {
  }

  /** The next request after a page-size change asks for the first page. */
  lemma ChangeRowsPerPageRequestsFirstPage<R>(st: ListingState<R>, size: nat, outcome: FetchOutcome<R>, msg: string)
    ensures Fetch(ChangeRowsPerPage(st, size), outcome, msg).1 == PageRequest(size, 0)
  {
  }

  /** A failed fetch shows only the fixed message, whatever rows were there before. */
  lemma FailedFetchShowsMessage<R>(st: ListingState<R>, outcome: FetchOutcome<R>, msg: string)
    requires !outcome.Loaded? && msg != ""
    ensures Render(Fetch(st, outcome, msg).0) == ErrorAlert(msg)
  {
  }

  /** A successful fetch shows exactly the fetched rows, counted by their number. */
  lemma LoadedFetchShowsRows<R>(st: ListingState<R>, items: seq<R>, msg: string)
    requires !st.isQueryMode
    ensures Render(Fetch(st, Loaded(items), msg).0)
            == Table(items, Some(Pagination(|items|, st.page, st.rowsPerPage, RowsPerPageOptions)))
  {
  }

  /** An error result changes nothing; a rows result shows them unpaginated with a count of 1. */
  lemma QueryResultEffect<R>(st: ListingState<R>, result: QueryResult<R>)
    ensures result.QueryFailed? ==> AfterQueryResult(st, result) == st
    ensures result.QueryRows? ==>
              && AfterQueryResult(st, result).totalCount == 1
              && (!st.loading ==> Render(AfterQueryResult(st, result)) == Table(result.items, None))
  {
  }

  /** Every handler and the fetch effect, as one step. */
  datatype Step<R> = FetchStep(outcome: FetchOutcome<R>) | PageStep(newPage: nat) | SizeStep(size: nat) | QueryStep(result: QueryResult<R>)

  function Apply<R>(st: ListingState<R>, step: Step<R>, failureMessage: string): ListingState<R> {
    match step
    case FetchStep(outcome) => Fetch(st, outcome, failureMessage).0
    case PageStep(newPage) => ChangePage(st, newPage)
    case SizeStep(size) => ChangeRowsPerPage(st, size)
    case QueryStep(result) => AfterQueryResult(st, result)
  }

  function Run<R>(st: ListingState<R>, steps: seq<Step<R>>, failureMessage: string): ListingState<R>
    decreases |steps|
  {
    if steps == [] then st else Run(Apply(st, steps[0], failureMessage), steps[1..], failureMessage)
  }

  /**
   * Query mode is never left: once a query result has been shown, no
   * sequence of handlers brings the pagination back.
   */
  lemma {:induction false} QueryModeSticky<R>(st: ListingState<R>, steps: seq<Step<R>>, msg: string)
    requires st.isQueryMode
    ensures Run(st, steps, msg).isQueryMode
    ensures Render(Run(st, steps, msg)).Table? ==> Render(Run(st, steps, msg)).pagination.None?
    decreases |steps|
  {
    if steps != [] {
      QueryModeSticky(Apply(st, steps[0], msg), steps[1..], msg);
    }
  }
}
