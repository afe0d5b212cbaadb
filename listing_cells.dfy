/**
 * The per-row cell choices the two listing tables share: the loyalty-tier
 * chip, the trust-score cell and (merchants only) the exclusivity chip.
 */
module ListingCells {
  import opened Wrappers
  import Js
  import TrustColors

  /** The Material-UI chip colours the tables use. */
  datatype ChipColor = DefaultColor | Primary | Secondary | Warning

  datatype Chip = Chip(text: string, color: ChipColor)

  /** A word of lower-case ASCII letters. */
  predicate LowerLetters(w: string) {
    forall k :: 0 <= k < |w| ==> 'a' <= w[k] <= 'z'
  }

  function UpperChar(c: char): (d: char)
    requires 'a' <= c <= 'z'
    ensures 'A' <= d <= 'Z' && Js.LowerChar(d) == c
  {
    (c as int - 'a' as int + 'A' as int) as char
  }

  /** A letter-by-letter case variant of a lower-case word. */
  predicate CaseVariant(s: string, w: string)
    requires LowerLetters(w)
  {
    |s| == |w| && forall k :: 0 <= k < |w| ==> s[k] == w[k] || s[k] == UpperChar(w[k])
  }

  /** The strings that lower-case to a lower-case word are exactly its case variants. */
  lemma {:induction false} LowerAsciiMatches(s: string, w: string)
    requires LowerLetters(w)
    ensures Js.LowerAscii(s) == w <==> CaseVariant(s, w)
  {
    var l := Js.LowerAscii(s);
    if l == w {
      forall k | 0 <= k < |w|
        ensures s[k] == w[k] || s[k] == UpperChar(w[k])
      {
        assert Js.LowerChar(s[k]) == w[k];
        if 'A' <= s[k] <= 'Z' {
          assert s[k] as int == w[k] as int - 'a' as int + 'A' as int;
        }
      }
    }
    if CaseVariant(s, w) {
      forall k | 0 <= k < |w|
        ensures l[k] == w[k]
      {
        if s[k] != w[k] {
          assert s[k] == UpperChar(w[k]);
        }
      }
      assert l == w;
    }
  }

  /** `tier?.toLowerCase()` equals the lower-case word w. */
  predicate LowerIs(tier: Option<string>, w: string) {
    tier.Some? && Js.LowerAscii(tier.value) == w
  }

  /**
   * `getLoyaltyTierColor`: the tier is lower-cased (a missing tier stays
   * `undefined`) and switched on: gold is a warning chip, bronze a secondary
   * one, silver and everything else the default.
   */
  function LoyaltyTierColor(tier: Option<string>): (c: ChipColor)
    ensures c == Warning <==> LowerIs(tier, "gold")
    ensures c == Secondary <==> LowerIs(tier, "bronze")
    ensures c == DefaultColor <==> !LowerIs(tier, "gold") && !LowerIs(tier, "bronze")
    ensures c != Primary
  {
    if tier.None? then DefaultColor
    else
      match Js.LowerAscii(tier.value)
      case "gold" => Warning
      case "silver" => DefaultColor
      case "bronze" => Secondary
      case _ => DefaultColor
  }

  /**
   * The chip colour depends only on the letters, not their case: any two
   * spellings that agree up to case get the same chip.
   */
  lemma LoyaltyTierColorIgnoresCase(a: string, b: string)
    requires Js.LowerAscii(a) == Js.LowerAscii(b)
    ensures LoyaltyTierColor(Some(a)) == LoyaltyTierColor(Some(b))
  {
  }

  /** Every case variant of `gold` is a warning chip. */
  lemma {:induction false} GoldVariantsAreWarning(s: string)
    requires CaseVariant(s, "gold")
    ensures LoyaltyTierColor(Some(s)) == Warning
  {
    LowerAsciiMatches(s, "gold");
  }

  /**
   * `GOLD` and `Gold` get the same chip here, while the shared tier colour
   * gives `GOLD` the grey default.
   */
  lemma {:induction false} GoldChipVersusTierColor()
    ensures LoyaltyTierColor(Some("GOLD")) == LoyaltyTierColor(Some("Gold")) == Warning
    ensures TrustColors.TierColor(Some("GOLD")) == TrustColors.DefaultTierColor
    ensures TrustColors.TierColor(Some("Gold")) == TrustColors.GoldColor
  {
    GoldVariantsAreWarning("GOLD");
    GoldVariantsAreWarning("Gold");
  }

  /** `tier || "N/A"`: the label of the tier chip. */
  function TierLabel(tier: Option<string>): (shown: string)
    ensures shown == "N/A" || (tier.Some? && shown == tier.value)
    ensures tier.Some? && tier.value != "" ==> shown == tier.value
    ensures shown != ""
  {
    if tier.Some? && tier.value != "" then tier.value else "N/A"
  }

  /** The tier chip of a row. */
  function TierChip(tier: Option<string>): (chip: Chip)
    ensures chip.color == LoyaltyTierColor(tier)
    ensures chip.text == TierLabel(tier)
    ensures tier.Some? && tier.value != "" ==> chip.text == tier.value
    ensures tier.None? || tier == Some("") ==> chip == Chip("N/A", DefaultColor)
  {
    Chip(TierLabel(tier), LoyaltyTierColor(tier))
  }

  /** The trust-score cell: a number is shown to two decimals, anything else as `N/A`. */
  datatype ScoreText = Fixed2(score: real) | NotAvailable

  /** `formatTrustScore`: `N/A` exactly when the value is not a number. */
  function FormatTrustScore(v: Js.Value): (t: ScoreText)
    ensures t == NotAvailable <==> !v.Num?
    ensures t.Fixed2? ==> v == Js.Num(t.score)
  {
    if v.Num? then Fixed2(v.x) else NotAvailable
  }

  /** A numeric string is not a number: `"87.5"` is shown as `N/A`. */
  lemma NumericStringIsNotAvailable()
    ensures FormatTrustScore(Js.Str("87.5")) == NotAvailable
    ensures FormatTrustScore(Js.Null) == NotAvailable
  {
  }

  /** The exclusive-partner chip: `Yes`/primary exactly when the flag is truthy. */
  function ExclusivityChip(flag: Js.Value): (chip: Chip)
    ensures chip == Chip("Yes", Primary) <==> Js.Truthy(flag)
    ensures chip == Chip("No", DefaultColor) <==> !Js.Truthy(flag)
  {
    if Js.Truthy(flag) then Chip("Yes", Primary) else Chip("No", DefaultColor)
  }

  /** Truthiness, not the boolean: the string `"false"` reads as Yes and `0` as No. */
  lemma ExclusivityFollowsTruthiness()
    ensures ExclusivityChip(Js.Str("false")) == Chip("Yes", Primary)
    ensures ExclusivityChip(Js.Num(0.0)) == Chip("No", DefaultColor)
    ensures ExclusivityChip(Js.Str("")) == Chip("No", DefaultColor)
  {
  }
}
