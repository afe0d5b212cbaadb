/**
 * The consumers table: its rows, the cells each row shows, and the
 * component whose hooks follow the listing transitions.
 */
module ConsumersListing {
  import opened Wrappers
  import Js
  import Listing
  import ListingCells

  /** A consumer row as the backend sends it. */
  datatype ConsumerRow = ConsumerRow(
    customerId: Js.Value,
    customerName: Js.Value,
    trustScore: Js.Value,
    loyaltyTier: Option<string>)

  /** The cells of one table row. */
  datatype ConsumerCells = ConsumerCells(
    id: Js.Value,
    name: Js.Value,
    score: ListingCells.ScoreText,
    tier: ListingCells.Chip)

  function CellsOf(row: ConsumerRow): (c: ConsumerCells)
    ensures c.score == ListingCells.FormatTrustScore(row.trustScore) && c.tier == ListingCells.TierChip(row.loyaltyTier)
    ensures c.score == ListingCells.NotAvailable <==> !row.trustScore.Num?
    ensures c.score.Fixed2? ==> row.trustScore == Js.Num(c.score.score)
    ensures c.tier.color == ListingCells.LoyaltyTierColor(row.loyaltyTier)
    ensures c.tier.text == ListingCells.TierLabel(row.loyaltyTier)
    ensures c.id == row.customerId && c.name == row.customerName
  {
    ConsumerCells(row.customerId, row.customerName,
                  ListingCells.FormatTrustScore(row.trustScore), ListingCells.TierChip(row.loyaltyTier))
  }

  const FailureMessage := "Failed to load consumers. Please try again."

  /** The `ConsumersListing` component: one field per state hook. */
  class ConsumersListingPage {
    var consumers: seq<ConsumerRow>
    var loading: bool
    var error: Option<string>
    var page: nat
    var rowsPerPage: nat
    var totalCount: nat
    var isQueryMode: bool

    function State(): Listing.ListingState<ConsumerRow>
      reads this
    {
      Listing.ListingState(consumers, loading, error, page, rowsPerPage, totalCount, isQueryMode)
    }

    constructor()
      ensures State() == Listing.Initial()
    {
      consumers := [];
      loading := true;
      error := None;
      page := 0;
      rowsPerPage := 10;
      totalCount := 0;
      isQueryMode := false;
    }

    /** The fetch effect, run to completion; returns the request it sent. */
    method FetchConsumers(outcome: Listing.FetchOutcome<ConsumerRow>) returns (request: Listing.PageRequest)
      modifies this
      ensures (State(), request) == Listing.Fetch(old(State()), outcome, FailureMessage)
    {
      loading := true;
      error := None;
      request := Listing.RequestFor(page, rowsPerPage);
      match outcome {
        case Loaded(data) =>
          consumers := data;
          totalCount := |data|;
        case HttpError(_) =>
          error := Some(FailureMessage);
        case NetError(_) =>
          error := Some(FailureMessage);
      }
      loading := false;
    }

    /** `handleChangePage`. */
    method HandleChangePage(newPage: nat)
      modifies this
      ensures State() == Listing.ChangePage(old(State()), newPage)
    {
      page := newPage;
    }

    /** `handleChangeRowsPerPage`, with the already parsed page size. */
    method HandleChangeRowsPerPage(size: nat)
      modifies this
      ensures State() == Listing.ChangeRowsPerPage(old(State()), size)
    {
      rowsPerPage := size;
      page := 0;
    }

    /** `handleQueryResult`. */
    method HandleQueryResult(result: Listing.QueryResult<ConsumerRow>)
      modifies this
      ensures State() == Listing.AfterQueryResult(old(State()), result)
    {
      match result {
        case QueryFailed(_) =>
        case QueryRows(rows) =>
          consumers := rows;
          totalCount := 1;
          isQueryMode := true;
          error := None;
      }
    }
  }

  /** A failed fetch always shows the consumers' fixed message. */
  lemma FailedFetchShowsConsumersMessage(st: Listing.ListingState<ConsumerRow>, outcome: Listing.FetchOutcome<ConsumerRow>)
    requires !outcome.Loaded?
    ensures Listing.Render(Listing.Fetch(st, outcome, FailureMessage).0) == Listing.ErrorAlert(FailureMessage)
  {
    Listing.FailedFetchShowsMessage(st, outcome, FailureMessage);
  }
}
