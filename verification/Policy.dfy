// The off-chain policy engine: `positiveAmount`, `bondBasisPoints`, `riskTier` and `priceBond`.
module Policy {
  import opened Common
  import opened Decimal
  import Pricing

  datatype RiskTier = Standard | Elevated | High

  datatype BondPrice = BondPrice(riskTier: RiskTier, estimatedMinimumBond: string, bondBasisPoints: nat)

  const DEFAULT_SCORE: int := -20

  /** The text a positive integer is accepted as: a first digit 1-9, then digits. None is the thrown error. */
  function PositiveAmount(value: string): Option<nat> {
    if value != "" && AllDigits(value) && value[0] != '0' then Some(Value(value)) else None
  }

  function BondBasisPoints(amount: nat, reputationScore: Option<int>): nat {
    var base :=
      if amount >= 50_000 * Pricing.TOKEN_UNIT then 500
      else if amount >= 10_000 * Pricing.TOKEN_UNIT then 300
      else 200;
    var reputation := if reputationScore.Some? then reputationScore.value else DEFAULT_SCORE;
    var magnitude := if reputation < 0 then -reputation else reputation;
    var penalty := if reputation < 0 then (if magnitude < 300 then magnitude else 300) else 0;
    base + penalty
  }

  function RiskTierOf(amount: nat, bps: nat): RiskTier {
    if amount >= 50_000 * Pricing.TOKEN_UNIT || bps >= 500 then High
    else if amount >= 10_000 * Pricing.TOKEN_UNIT || bps >= 300 then Elevated
    else Standard
  }

  function PriceBond(amount: string, reputationScore: Option<int>): Option<BondPrice> {
    match PositiveAmount(amount)
    case None => None
    case Some(n) =>
      var bps := BondBasisPoints(n, reputationScore);
      Some(BondPrice(RiskTierOf(n, bps), Render(n * bps / 10_000), bps))
  }

  /** An amount is accepted exactly when it is the text of a positive integer. */
  lemma AcceptedAmounts(value: string, n: nat)
    ensures PositiveAmount(value) == Some(n) <==> n > 0 && value == Render(n)
  {
    ParseRender(value, n);
    RenderIsCanonical(n);
    if PositiveAmount(value).Some? {
      CanonicalIsRendered(value);
    }
  }

  /** The engine and the controller price alike: same amount, same score, same bond; an unknown score counts as -20. */
  lemma PricesAgree(n: nat, reputationScore: Option<int>)
    requires n > 0
    ensures var score := if reputationScore.Some? then reputationScore.value else -20;
            && PriceBond(Render(n), reputationScore).Some?
            && PriceBond(Render(n), reputationScore).value.estimatedMinimumBond == Render(Pricing.BondRequired(n, score))
  {
    AcceptedAmounts(Render(n), n);
  }

  /** Everything else is refused. */
  lemma OtherAmountsAreRefused(value: string, reputationScore: Option<int>)
    ensures PriceBond(value, reputationScore).None? <==> forall n: nat :: n > 0 ==> value != Render(n)
  {
    if PositiveAmount(value).Some? {
      AcceptedAmounts(value, PositiveAmount(value).value);
    } else {
      forall n: nat | n > 0 ensures value != Render(n) {
        AcceptedAmounts(value, n);
      }
    }
  }

  /** The quoted bond, rate and tier in figures: the tiers of the amount at 10 000 and 50 000 tokens in base units, a
      penalty of one basis point for each point of a negative score, 300 at most, and -20 for an unknown score. */
  lemma QuoteInFigures(n: nat, reputationScore: Option<int>)
    requires n > 0
    ensures PriceBond(Render(n), reputationScore).Some?
    ensures var price := PriceBond(Render(n), reputationScore).value;
            var score := if reputationScore.Some? then reputationScore.value else -20;
            var penalty := if score >= 0 then 0 else if score <= -300 then 300 else -score;
            && (n < 10_000_000_000_000 ==> price.bondBasisPoints == 200 + penalty)
            && (10_000_000_000_000 <= n < 50_000_000_000_000 ==> price.bondBasisPoints == 300 + penalty)
            && (50_000_000_000_000 <= n ==> price.bondBasisPoints == 500 + penalty)
            && price.estimatedMinimumBond == Render(n * price.bondBasisPoints / 10_000)
  {
    AcceptedAmounts(Render(n), n);
  }

  /** The tier follows the rate: high from 500 basis points on, elevated from 300, standard below. The amounts that the
      tiers name as well already have such rates. */
  lemma TiersExactly(n: nat, reputationScore: Option<int>)
    requires n > 0
    ensures PriceBond(Render(n), reputationScore).Some?
    ensures var price := PriceBond(Render(n), reputationScore).value;
            && (price.riskTier == High <==> price.bondBasisPoints >= 500)
            && (price.riskTier == Elevated <==> 300 <= price.bondBasisPoints < 500)
            && (price.riskTier == Standard <==> price.bondBasisPoints < 300)
  {
    AcceptedAmounts(Render(n), n);
  }
}
