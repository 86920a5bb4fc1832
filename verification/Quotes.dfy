// The paid-quote and nonce tables, and the rows `quoteResponse` puts there.
module Quotes {
  import opened Common
  import Pricing
  import Policy

  datatype FaultClass = DuplicateClaim | DeliveryContradiction

  datatype Status = Paid | Consuming | Consumed | Failed

  /** The parts of `policy_snapshot_json` that the submit route checks, and the score that was priced. */
  datatype Snapshot = Snapshot(amount: nat, faultClass: FaultClass, quotedMinimumBond: nat, score: int)

  datatype Quote = Quote(
    faultClass: FaultClass,
    amount: nat,
    requiredBond: nat,
    expiry: nat,
    payer: Option<string>,
    settlementTx: string,
    status: Status,
    submitPayloadHash: Option<string>,
    consumedActionId: Option<nat>,
    consumedAt: Option<nat>,
    snapshot: Option<Snapshot>)

  datatype Tables = Tables(quotes: map<string, Quote>, nonces: set<string>)

  /** A write that a uniqueness constraint refuses. */
  datatype Write = Written(tables: Tables) | ConstraintFailed

  predicate SettlementTaken(t: Tables, hash: string, tx: string) {
    exists h :: h in t.quotes && h != hash && t.quotes[h].settlementTx == tx
  }

  predicate ActionTaken(t: Tables, hash: string, actionId: nat) {
    exists h :: h in t.quotes && h != hash && t.quotes[h].consumedActionId == Some(actionId)
  }

  /** A re-quote refreshes the terms but keeps what became of the quote, and its first snapshot. */
  function Upsert(t: Tables, hash: string, row: Quote): Write {
    if SettlementTaken(t, hash, row.settlementTx) then ConstraintFailed
    else if hash !in t.quotes then
      if row.consumedActionId.Some? && ActionTaken(t, hash, row.consumedActionId.value) then ConstraintFailed
      else Written(t.(quotes := t.quotes[hash := row]))
    else
      var kept := t.quotes[hash];
      Written(t.(quotes := t.quotes[hash := row.(
        status := kept.status,
        submitPayloadHash := kept.submitPayloadHash,
        consumedActionId := kept.consumedActionId,
        consumedAt := kept.consumedAt,
        snapshot := if kept.snapshot.Some? then kept.snapshot else row.snapshot)]))
  }

  function Reserve(t: Tables, hash: string, payloadHash: string): (r: (Tables, bool)) {
    if hash in t.quotes && t.quotes[hash].status.Paid? && t.quotes[hash].consumedActionId.None?
    then (t.(quotes := t.quotes[hash := t.quotes[hash].(status := Consuming, submitPayloadHash := Some(payloadHash))]), true)
    else (t, false)
  }

  function Release(t: Tables, hash: string): Tables {
    if hash in t.quotes && t.quotes[hash].status.Consuming?
    then t.(quotes := t.quotes[hash := t.quotes[hash].(status := Paid, submitPayloadHash := None)])
    else t
  }

  function Consume(t: Tables, hash: string, actionId: nat, now: nat): Write {
    if hash !in t.quotes || !t.quotes[hash].status.Consuming? then Written(t)
    else if ActionTaken(t, hash, actionId) then ConstraintFailed
    else Written(t.(quotes := t.quotes[hash := t.quotes[hash].(
           status := Consumed, consumedActionId := Some(actionId), consumedAt := Some(now))]))
  }

  function UseNonce(t: Tables, nonceHash: string): (Tables, bool) {
    if nonceHash in t.nonces then (t, false) else (t.(nonces := t.nonces + {nonceHash}), true)
  }

  // ---- Quoting --------------------------------------------------------------------------------

  /** What a quote hash is taken over; the hash itself is a parameter, injective where that matters. */
  datatype Preimage = Preimage(amount: nat, requiredBond: nat, settlementTx: string, faultClass: FaultClass)

  const QUOTE_LIFETIME_MS: nat := 900_000

  /** The row of a quote for a positive amount, priced at the projected score (-20 when there is none). */
  function QuoteRow(amount: nat, faultClass: FaultClass, score: Option<int>, tx: string, payer: Option<string>, now: nat): Quote {
    var scored := if score.Some? then score.value else Policy.DEFAULT_SCORE;
    var bond := amount * Policy.BondBasisPoints(amount, Some(scored)) / 10_000;
    Quote(faultClass, amount, bond, now + QUOTE_LIFETIME_MS, payer, tx, Paid, None, None, None,
          Some(Snapshot(amount, faultClass, bond, scored)))
  }

  function PreimageOf(row: Quote): Preimage {
    Preimage(row.amount, row.requiredBond, row.settlementTx, row.faultClass)
  }

  // ---- Freshness ------------------------------------------------------------------------------

  /** `assertQuotePolicyFresh`: true when it throws nothing. */
  predicate PolicyFresh(row: Quote, currentScore: Option<int>) {
    && (row.snapshot.Some? ==>
          && row.snapshot.value.amount == row.amount
          && row.snapshot.value.faultClass == row.faultClass
          && row.snapshot.value.quotedMinimumBond == row.requiredBond)
    && row.amount > 0
    && row.amount * Policy.BondBasisPoints(row.amount, currentScore) / 10_000 >= row.requiredBond
  }

  /** A row as quoting leaves it: its snapshot tells the price it was quoted at. */
  ghost predicate Consistent(row: Quote) {
    && row.amount > 0
    && row.snapshot.Some?
    && row.snapshot.value.amount == row.amount
    && row.snapshot.value.faultClass == row.faultClass
    && row.snapshot.value.quotedMinimumBond == row.requiredBond
    && row.requiredBond == Pricing.BondRequired(row.amount, row.snapshot.value.score)
  }

  lemma QuoteRowIsConsistent(amount: nat, faultClass: FaultClass, score: Option<int>, tx: string, payer: Option<string>, now: nat)
    requires amount > 0
    ensures Consistent(QuoteRow(amount, faultClass, score, tx, payer, now))
  {
  }

  /** A quoted row is fresh exactly while the current price covers the quoted one; never stale while the agent's
      debt of reputation has not shrunk. */
  lemma FreshnessExactly(row: Quote, currentScore: Option<int>)
    requires Consistent(row)
    ensures var current := if currentScore.Some? then currentScore.value else Policy.DEFAULT_SCORE;
            var quoted := row.snapshot.value.score;
            && (PolicyFresh(row, currentScore) <==>
                  Pricing.BondRequired(row.amount, current) >= Pricing.BondRequired(row.amount, quoted))
            && ((if current < 0 then current else 0) <= (if quoted < 0 then quoted else 0) ==> PolicyFresh(row, currentScore))
  {
    var current := if currentScore.Some? then currentScore.value else Policy.DEFAULT_SCORE;
    if (if current < 0 then current else 0) <= (if row.snapshot.value.score < 0 then row.snapshot.value.score else 0) {
      Pricing.QuoteStaysFresh(row.amount, row.snapshot.value.score, current);
    }
  }

  class Repository {
    var quotes: map<string, Quote>
    var nonces: set<string>

    function View(): Tables
      reads this
    {
      Tables(quotes, nonces)
    }

    constructor ()
      ensures View() == Tables(map[], {})
    {
      quotes, nonces := map[], {};
    }

    /** The written tables; a refused write changes nothing. */
    method UpsertPaidQuote(hash: string, row: Quote) returns (ok: bool)
      modifies this
      ensures match Upsert(old(View()), hash, row)
              case Written(t) => ok && View() == t
              case ConstraintFailed => !ok && View() == old(View())
    {
      if SettlementTaken(View(), hash, row.settlementTx) {
        return false;
      }
      if hash in quotes {
        var kept := quotes[hash];
        var merged := row.(status := kept.status, submitPayloadHash := kept.submitPayloadHash);
        merged := merged.(consumedActionId := kept.consumedActionId, consumedAt := kept.consumedAt);
        if kept.snapshot.Some? {
          merged := merged.(snapshot := kept.snapshot);
        }
        quotes := quotes[hash := merged];
      } else {
        if row.consumedActionId.Some? && ActionTaken(View(), hash, row.consumedActionId.value) {
          return false;
        }
        quotes := quotes[hash := row];
      }
      ok := true;
    }

    method ReservePaidQuote(hash: string, payloadHash: string) returns (reserved: bool)
      modifies this
      ensures (View(), reserved) == Reserve(old(View()), hash, payloadHash)
    {
      reserved := hash in quotes && quotes[hash].status.Paid? && quotes[hash].consumedActionId.None?;
      if reserved {
        quotes := quotes[hash := quotes[hash].(status := Consuming, submitPayloadHash := Some(payloadHash))];
      }
    }

    method ReleasePaidQuote(hash: string)
      modifies this
      ensures View() == Release(old(View()), hash)
    {
      if hash in quotes && quotes[hash].status.Consuming? {
        quotes := quotes[hash := quotes[hash].(status := Paid, submitPayloadHash := None)];
      }
    }

    method ConsumePaidQuote(hash: string, actionId: nat, now: nat) returns (ok: bool)
      modifies this
      ensures match Consume(old(View()), hash, actionId, now)
              case Written(t) => ok && View() == t
              case ConstraintFailed => !ok && View() == old(View())
    {
      if hash in quotes && quotes[hash].status.Consuming? {
        if ActionTaken(View(), hash, actionId) {
          return false;
        }
        var row := quotes[hash];
        quotes := quotes[hash := row.(status := Consumed, consumedActionId := Some(actionId), consumedAt := Some(now))];
      }
      ok := true;
    }

    method UseSubmitAuthorizationNonce(nonceHash: string) returns (first: bool)
      modifies this
      ensures (View(), first) == UseNonce(old(View()), nonceHash)
    {
      first := nonceHash !in nonces;
      if first {
        nonces := nonces + {nonceHash};
      }
    }
  }
}
