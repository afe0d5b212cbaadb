/**
 * The shared colour helpers: the loyalty-tier colour and the trust-score
 * colour used on the detail pages.
 */
module TrustColors {
  import opened Wrappers

  const GoldColor := "#FFD700"
  const SilverColor := "#C0C0C0"
  const BronzeColor := "#CD7F32"
  const PlatinumColor := "#E5E4E2"
  const DefaultTierColor := "#757575"

  /** The tiers `getTierColor` knows, spelt exactly as it compares them. */
  predicate KnownTier(tier: Option<string>) {
    tier == Some("Gold") || tier == Some("Silver") || tier == Some("Bronze") || tier == Some("Platinum")
  }

  /**
   * `getTierColor`: a strict-equality switch over four tier names. A missing
   * tier, or any other spelling (lower case included), gets the grey default.
   */
  function TierColor(tier: Option<string>): (c: string)
    ensures c == GoldColor <==> tier == Some("Gold")
    ensures c == SilverColor <==> tier == Some("Silver")
    ensures c == BronzeColor <==> tier == Some("Bronze")
    ensures c == PlatinumColor <==> tier == Some("Platinum")
    ensures c == DefaultTierColor <==> !KnownTier(tier)
  {
    match tier
    case Some("Gold") => GoldColor
    case Some("Silver") => SilverColor
    case Some("Bronze") => BronzeColor
    case Some("Platinum") => PlatinumColor
    case _ => DefaultTierColor
  }

  /** The tier colour is case-sensitive: `gold` is not `Gold`. */
  lemma LowerCaseGoldIsDefault()
    ensures TierColor(Some("gold")) == DefaultTierColor
    ensures TierColor(None) == DefaultTierColor
  {
  }

  /** The three score bands, best first. */
  datatype Band = Good | Fair | Poor

  /** Higher is better. */
  function Rank(b: Band): nat {
    match b
    case Good => 2
    case Fair => 1
    case Poor => 0
  }

  /** The band a trust score falls in: at least 90, at least 70, or below. */
  function ScoreBand(score: real): (b: Band)
    ensures b == Good <==> score >= 90.0
    ensures b == Fair <==> 70.0 <= score < 90.0
    ensures b == Poor <==> score < 70.0
  {
    if score >= 90.0 then Good
    else if score >= 70.0 then Fair
    else Poor
  }

  function BandColor(b: Band): string {
    match b
    case Good => "#4CAF50"
    case Fair => "#FF9800"
    case Poor => "#F44336"
  }

  /** `getScoreColor`: green from 90, orange from 70, red below. */
  function ScoreColor(score: real): (c: string)
    ensures c == "#4CAF50" <==> score >= 90.0
    ensures c == "#FF9800" <==> 70.0 <= score < 90.0
    ensures c == "#F44336" <==> score < 70.0
  {
    BandColor(ScoreBand(score))
  }

  /** Raising a score never moves it to a worse band. */
  lemma ScoreBandMonotone(s: real, t: real)
    requires s <= t
    ensures Rank(ScoreBand(s)) <= Rank(ScoreBand(t))
  {
  }

  /** The band colours are pairwise distinct, so the colour identifies the band. */
  lemma BandColorInjective(a: Band, b: Band)
    ensures BandColor(a) == BandColor(b) <==> a == b
  {
  }
}
