/**
 * The merchants table: its rows, the cells each row shows, and the
 * component whose hooks follow the listing transitions.
 */
module MerchantsListing {
  import opened Wrappers
  import Js
  import Listing
  import ListingCells

  /** A merchant row as the backend sends it. */
  datatype MerchantRow = MerchantRow(
    merchantId: Js.Value,
    merchantName: Js.Value,
    exclusivityFlag: Js.Value,
    trustScore: Js.Value,
    loyaltyTier: Option<string>)

  /** The cells of one table row. */
  datatype MerchantCells = MerchantCells(
    id: Js.Value,
    name: Js.Value,
    exclusive: ListingCells.Chip,
    score: ListingCells.ScoreText,
    tier: ListingCells.Chip)

  function CellsOf(row: MerchantRow): (c: MerchantCells)
    ensures c.exclusive == ListingCells.ExclusivityChip(row.exclusivityFlag)
    ensures c.score == ListingCells.FormatTrustScore(row.trustScore) && c.tier == ListingCells.TierChip(row.loyaltyTier)
    ensures c.exclusive.text == "Yes" <==> Js.Truthy(row.exclusivityFlag)
    ensures c.score == ListingCells.NotAvailable <==> !row.trustScore.Num?
    ensures c.score.Fixed2? ==> row.trustScore == Js.Num(c.score.score)
    ensures c.tier.color == ListingCells.LoyaltyTierColor(row.loyaltyTier)
    ensures c.tier.text == ListingCells.TierLabel(row.loyaltyTier)
    ensures c.id == row.merchantId && c.name == row.merchantName
  {
    MerchantCells(row.merchantId, row.merchantName, ListingCells.ExclusivityChip(row.exclusivityFlag),
                  ListingCells.FormatTrustScore(row.trustScore), ListingCells.TierChip(row.loyaltyTier))
  }

  const FailureMessage := "Failed to load merchants. Please try again."

  /** The `MerchantsListing` component: one field per state hook. */
  class MerchantsListingPage {
    var merchants: seq<MerchantRow>
    var loading: bool
    var error: Option<string>
    var page: nat
    var rowsPerPage: nat
    var totalCount: nat
    var isQueryMode: bool

    function State(): Listing.ListingState<MerchantRow>
      reads this
    {
      Listing.ListingState(merchants, loading, error, page, rowsPerPage, totalCount, isQueryMode)
    }

    constructor()
      ensures State() == Listing.Initial()
    {
      merchants := [];
      loading := true;
      error := None;
      page := 0;
      rowsPerPage := 10;
      totalCount := 0;
      isQueryMode := false;
    }

    /** The fetch effect, run to completion; returns the request it sent. */
    method FetchMerchants(outcome: Listing.FetchOutcome<MerchantRow>) returns (request: Listing.PageRequest)
      modifies this
      ensures (State(), request) == Listing.Fetch(old(State()), outcome, FailureMessage)
    {
      loading := true;
      error := None;
      request := Listing.RequestFor(page, rowsPerPage);
      match outcome {
        case Loaded(data) =>
          merchants := data;
          totalCount := |data|;
        case HttpError(_) =>
          error := Some(FailureMessage);
        case NetError(_) =>
          error := Some(FailureMessage);
      }
      loading := false;
    }

    /** `handleChangePage`. */
    method HandleChangePage(newPage: nat)
      modifies this
      ensures State() == Listing.ChangePage(old(State()), newPage)
    {
      page := newPage;
    }

    /** `handleChangeRowsPerPage`, with the already parsed page size. */
    method HandleChangeRowsPerPage(size: nat)
      modifies this
      ensures State() == Listing.ChangeRowsPerPage(old(State()), size)
    {
      rowsPerPage := size;
      page := 0;
    }

    /** `handleQueryResult`. */
    method HandleQueryResult(result: Listing.QueryResult<MerchantRow>)
      modifies this
      ensures State() == Listing.AfterQueryResult(old(State()), result)
    {
      match result {
        case QueryFailed(_) =>
        case QueryRows(rows) =>
          merchants := rows;
          totalCount := 1;
          isQueryMode := true;
          error := None;
      }
    }
  }

  /** A failed fetch always shows the merchants' fixed message. */
  lemma FailedFetchShowsMerchantsMessage(st: Listing.ListingState<MerchantRow>, outcome: Listing.FetchOutcome<MerchantRow>)
    requires !outcome.Loaded?
    ensures Listing.Render(Listing.Fetch(st, outcome, FailureMessage).0) == Listing.ErrorAlert(FailureMessage)
  {
    Listing.FailedFetchShowsMessage(st, outcome, FailureMessage);
  }
}
