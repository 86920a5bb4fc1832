// The bond formula of both controllers, `get_bond_required`, and its economics.
module Pricing {

  const TOKEN_UNIT: nat := 1_000_000_000

  function BaseBps(amount: nat): nat {
    if amount >= 50_000 * TOKEN_UNIT then 500
    else if amount >= 10_000 * TOKEN_UNIT then 300
    else 200
  }

  function PenaltyBps(score: int): nat {
    if score >= 0 then 0 else if -score < 300 then -score else 300
  }

  function BondRequired(amount: nat, score: int): nat {
    amount * (BaseBps(amount) + PenaltyBps(score)) / 10_000
  }

  // ---- The price in figures -------------------------------------------------------------------

  /** The rate in basis points, in base units of a billionth of a token: 200 below 10 000 tokens, 300 from there, 500
      from 50 000, and one more for each point the score is below zero, 300 at most. */
  lemma PriceInFigures(amount: nat, score: int)
    ensures score >= 0 && amount < 10_000_000_000_000 ==> BondRequired(amount, score) == amount * 200 / 10_000
    ensures score >= 0 && 10_000_000_000_000 <= amount < 50_000_000_000_000 ==> BondRequired(amount, score) == amount * 300 / 10_000
    ensures score >= 0 && 50_000_000_000_000 <= amount ==> BondRequired(amount, score) == amount * 500 / 10_000
    ensures -300 < score < 0 && amount < 10_000_000_000_000 ==> BondRequired(amount, score) == amount * (200 - score) / 10_000
    ensures -300 < score < 0 && 10_000_000_000_000 <= amount < 50_000_000_000_000 ==>
              BondRequired(amount, score) == amount * (300 - score) / 10_000
    ensures -300 < score < 0 && 50_000_000_000_000 <= amount ==> BondRequired(amount, score) == amount * (500 - score) / 10_000
    ensures score <= -300 && amount < 10_000_000_000_000 ==> BondRequired(amount, score) == amount * 500 / 10_000
    ensures score <= -300 && 10_000_000_000_000 <= amount < 50_000_000_000_000 ==>
              BondRequired(amount, score) == amount * 600 / 10_000
    ensures score <= -300 && 50_000_000_000_000 <= amount ==> BondRequired(amount, score) == amount * 800 / 10_000
  {
  }

  // ---- Economics ------------------------------------------------------------------------------

  /** A larger amount at a larger rate never needs a smaller share. */
  lemma ShareMonotone(a: nat, b: nat, p: nat, q: nat)
    requires a <= b && p <= q
    ensures a * p / 10_000 <= b * q / 10_000
  {
    assert a * p <= b * p <= b * q;
    DivMonotone(a * p, b * q);
  }

  lemma DivMonotone(x: nat, y: nat)
    requires x <= y
    ensures x / 10_000 <= y / 10_000
  {
  }

  /** Reputation never discounts a bond below 200 bps, nor raises it above 800. */
  lemma BondFloors(amount: nat, score: int)
    ensures amount * 200 / 10_000 <= BondRequired(amount, score) <= amount * 800 / 10_000
  {
    var bps := BaseBps(amount) + PenaltyBps(score);
    ShareMonotone(amount, amount, 200, bps);
    ShareMonotone(amount, amount, bps, 800);
  }

  /** A larger payout never needs a smaller bond, across the edges of the tiers too. */
  lemma BondMonotone(a: nat, b: nat, score: int)
    requires a <= b
    ensures BondRequired(a, score) <= BondRequired(b, score)
  {
    ShareMonotone(a, b, BaseBps(a) + PenaltyBps(score), BaseBps(b) + PenaltyBps(score));
  }

  /** A better score never needs a larger bond. */
  lemma BondAntitone(amount: nat, worse: int, better: int)
    requires worse <= better
    ensures BondRequired(amount, better) <= BondRequired(amount, worse)
  {
    ShareMonotone(amount, amount, BaseBps(amount) + PenaltyBps(better), BaseBps(amount) + PenaltyBps(worse));
  }

  /** Splitting a payout in two never needs more bond than paying it at once. */
  lemma BondSuperadditive(a: nat, b: nat, score: int)
    ensures BondRequired(a, score) + BondRequired(b, score) <= BondRequired(a + b, score)
  {
    var p, q, r := BaseBps(a) + PenaltyBps(score), BaseBps(b) + PenaltyBps(score), BaseBps(a + b) + PenaltyBps(score);
    assert p <= r && q <= r;
    ShareMonotone(a, a, p, r);
    ShareMonotone(b, b, q, r);
    assert (a + b) * r == a * r + b * r;
    FloorSum(a * r, b * r);
  }

  lemma FloorSum(x: nat, y: nat)
    ensures x / 10_000 + y / 10_000 <= (x + y) / 10_000
  {
  }

  // ---- Freshness of a quoted bond -------------------------------------------------------------

  /** A bond quoted at one score covers the minimum at another whenever the debt of the agent has not shrunk. */
  lemma QuoteStaysFresh(amount: nat, quoted: int, current: int)
    requires (if current < 0 then current else 0) <= (if quoted < 0 then quoted else 0)
    ensures BondRequired(amount, current) >= BondRequired(amount, quoted)
  {
    ShareMonotone(amount, amount, BaseBps(amount) + PenaltyBps(quoted), BaseBps(amount) + PenaltyBps(current));
  }

  /** For amounts that a basis point can move, that is exactly when the penalty has not shrunk. */
  lemma FreshExactly(amount: nat, quoted: int, current: int)
    requires amount >= 10_000
    ensures BondRequired(amount, current) >= BondRequired(amount, quoted) <==> PenaltyBps(current) >= PenaltyBps(quoted)
  {
    var base, p, q := BaseBps(amount), PenaltyBps(current), PenaltyBps(quoted);
    if p >= q {
      ShareMonotone(amount, amount, base + q, base + p);
    } else {
      ShareStrict(amount, base + p, base + q);
    }
  }

  lemma ShareStrict(amount: nat, p: nat, q: nat)
    requires amount >= 10_000 && p < q
    ensures amount * p / 10_000 < amount * q / 10_000
  {
    var step := q - p - 1;
    assert amount * q == amount * p + amount + amount * step;
    DivStep(amount * p, amount * q);
  }

  lemma DivStep(x: nat, y: nat)
    requires y >= x + 10_000
    ensures x / 10_000 < y / 10_000
  {
  }
}
