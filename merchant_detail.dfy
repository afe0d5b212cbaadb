/**
 * The merchant profile page: its load effect, the loading/error/profile
 * precedence, and the small classifications in the profile (risk label,
 * dispute wording and colour, tier and score colours).
 */
module MerchantDetail {
  import opened Wrappers
  import TrustColors

  /** The record the page shows. Rates and the score are exact reals. */
  datatype MerchantRecord = MerchantRecord(
    merchantId: string,
    merchantName: string,
    repaymentRate: real,
    disputeCount: int,
    defaultRate: real,
    transactionVolume: int,
    trustScore: real,
    loyaltyTier: Option<string>)

  /** The risk wording of the summary paragraph. */
  function RiskLabel(score: real): (risk: string)
    ensures risk == "low" <==> score >= 90.0
    ensures risk == "moderate" <==> 70.0 <= score < 90.0
    ensures risk == "high" <==> score < 70.0
  {
    if score >= 90.0 then "low"
    else if score >= 70.0 then "moderate"
    else "high"
  }

  /**
   * The risk label and the score colour put a score in the same band:
   * low with green, moderate with orange, high with red.
   */
  lemma RiskMatchesScoreColor(score: real)
    ensures RiskLabel(score) == "low" <==> TrustColors.ScoreColor(score) == "#4CAF50"
    ensures RiskLabel(score) == "moderate" <==> TrustColors.ScoreColor(score) == "#FF9800"
    ensures RiskLabel(score) == "high" <==> TrustColors.ScoreColor(score) == "#F44336"
  {
  }

  /** `"dispute"` followed by `"s"` unless the count is exactly one. */
  function DisputeWord(count: int): (w: string)
    ensures w == "dispute" <==> count == 1
    ensures w == "disputes" <==> count != 1
  {
    "dispute" + (if count != 1 then "s" else "")
  }

  /** Green exactly when there are no disputes, orange otherwise (negative counts included). */
  function DisputeColor(count: int): (c: string)
    ensures c == "#4CAF50" <==> count == 0
    ensures c == "#FF9800" <==> count != 0
  {
    if count == 0 then "#4CAF50" else "#FF9800"
  }

  /** Zero disputes is plural yet green; one is singular and orange. */
  lemma DisputeEdgeCases()
    ensures DisputeWord(0) == "disputes" && DisputeColor(0) == "#4CAF50"
    ensures DisputeWord(1) == "dispute" && DisputeColor(1) == "#FF9800"
  {
  }

  /** The classifications the profile derives from a record. */
  datatype Profile = Profile(
    record: MerchantRecord,
    tierColor: string,
    scoreColor: string,
    disputeColor: string,
    disputeWord: string,
    riskLabel: string)

  /**
   * Each label and colour is the one its helper derives from the record, so
   * the risk wording and the score colour always name the same band.
   */
  function ProfileOf(m: MerchantRecord): (p: Profile)
    ensures p.record == m
    ensures p.riskLabel == RiskLabel(m.trustScore) && p.scoreColor == TrustColors.ScoreColor(m.trustScore)
    ensures p.tierColor == TrustColors.TierColor(m.loyaltyTier)
    ensures p.disputeWord == DisputeWord(m.disputeCount) && p.disputeColor == DisputeColor(m.disputeCount)
    ensures p.riskLabel == "low" <==> p.scoreColor == "#4CAF50"
    ensures p.riskLabel == "moderate" <==> p.scoreColor == "#FF9800"
    ensures p.riskLabel == "high" <==> p.scoreColor == "#F44336"
    ensures p.disputeColor == "#4CAF50" <==> m.disputeCount == 0
  {
    RiskMatchesScoreColor(m.trustScore);
    Profile(m, TrustColors.TierColor(m.loyaltyTier), TrustColors.ScoreColor(m.trustScore),
            DisputeColor(m.disputeCount), DisputeWord(m.disputeCount), RiskLabel(m.trustScore))
  }

  /**
   * What the page shows. `Broken` stands for reaching the profile with no
   * record, where reading its fields throws.
   */
  datatype PageView = Spinner | ErrorAlert(text: string) | ProfileView(profile: Profile) | Broken

  /** The precedence: loading, then a truthy error, then the profile. */
  function Render(loading: bool, error: Option<string>, data: Option<MerchantRecord>): (v: PageView)
    ensures v.Spinner? <==> loading
    ensures v.ErrorAlert? <==> !loading && error.Some? && error.value != ""
    ensures v.ErrorAlert? ==> v.text == error.value
    ensures v.ProfileView? ==> data.Some? && v.profile == ProfileOf(data.value)
    ensures v.Broken? <==> !loading && (error.None? || error.value == "") && data.None?
  {
    if loading then Spinner
    else if error.Some? && error.value != "" then ErrorAlert(error.value)
    else if data.None? then Broken
    else ProfileView(ProfileOf(data.value))
  }

  /** The prefix of the load failure message. */
  const FailurePrefix := "Failed to fetch merchant data: "

  /** The page component: its three state hooks as fields. */
  class MerchantDetailPage {
    var merchantData: Option<MerchantRecord>
    var loading: bool
    var error: Option<string>

    /** Once loading is over, there is a record or a truthy error to show. */
    predicate Valid()
      reads this
    {
      !loading ==> merchantData.Some? || (error.Some? && error.value != "")
    }

    constructor()
      ensures merchantData.None? && loading && error.None?
      ensures Valid()
    {
      merchantData := None;
      loading := true;
      error := None;
    }

    /**
     * The end of the load effect: a record is stored, or the failure is
     * reported with the fixed prefix; loading ends either way.
     */
    method FinishLoad(outcome: Result<MerchantRecord, string>)
      modifies this
      ensures !loading
      ensures outcome.Success? ==> merchantData == Some(outcome.value) && error == old(error)
      ensures outcome.Failure? ==> error == Some(FailurePrefix + outcome.error) && merchantData == old(merchantData)
      ensures Valid()
    {
      match outcome {
        case Success(m) =>
          merchantData := Some(m);
        case Failure(msg) =>
          error := Some(FailurePrefix + msg);
      }
      loading := false;
    }
  }

  /** A valid page never reaches the profile without a record. */
  lemma ValidNeverBroken(loading: bool, error: Option<string>, data: Option<MerchantRecord>)
    requires !loading ==> data.Some? || (error.Some? && error.value != "")
    ensures !Render(loading, error, data).Broken?
  {
  }

  /** After a successful load the profile of exactly that record is shown. */
  lemma LoadedShowsProfile(m: MerchantRecord)
    ensures Render(false, None, Some(m)) == ProfileView(ProfileOf(m))
  {
  }

  /** After a failed load the alert carries the prefixed message, whatever the message was. */
  lemma FailedShowsAlert(msg: string, data: Option<MerchantRecord>)
    ensures Render(false, Some(FailurePrefix + msg), data) == ErrorAlert(FailurePrefix + msg)
  {
  }
}
