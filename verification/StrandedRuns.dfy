// Runs of the submit route in which a quote that paid for an executed action is free to pay for another.
module StrandedRuns {
  import opened Common
  import opened Quotes
  import opened PaidSubmit

  /** The steps of a request up to its hold on a quote. */
  function ToHold(req: nat, hash: string, nonceHash: string): seq<Step> {
    [Check(req, hash, DuplicateClaim, false, None, 0), Authorize(req, true, nonceHash), ReserveQuote(req, "")]
  }

  /** After them: the quote is held and the nonce spent. */
  function Held(s: Server, req: nat, hash: string, nonceHash: string): Server
    requires hash in s.tables.quotes
  {
    var row := s.tables.quotes[hash].(status := Consuming, submitPayloadHash := Some(""));
    Server(Tables(s.tables.quotes[hash := row], s.tables.nonces + {nonceHash}), s.phases[req := Holding(hash)], s.passed + [nonceHash])
  }

  predicate CanHold(s: Server, req: nat, hash: string, nonceHash: string) {
    && req !in s.phases && nonceHash !in s.tables.nonces && hash in s.tables.quotes
    && Acceptable(s.tables.quotes[hash], DuplicateClaim, false, None, 0) && s.tables.quotes[hash].consumedActionId.None?
  }

  lemma HoldingRun(hashOf: Preimage -> string, s: Server, req: nat, hash: string, nonceHash: string)
    requires CanHold(s, req, hash, nonceHash)
    ensures Run(hashOf, s, ToHold(req, hash, nonceHash)) == Held(s, req, hash, nonceHash)
  {
    var steps := ToHold(req, hash, nonceHash);
    var s1 := Next(hashOf, s, steps[0]);
    assert s1 == s.(phases := s.phases[req := Checked(hash)]);
    var s2 := Next(hashOf, s1, steps[1]);
    assert s2 == Server(Tables(s.tables.quotes, s.tables.nonces + {nonceHash}), s1.phases[req := Authorized(hash)], s.passed + [nonceHash]);
    assert s.phases[req := Checked(hash)][req := Authorized(hash)][req := Holding(hash)] == s.phases[req := Holding(hash)];
    assert steps[1..] == [steps[1], steps[2]];
    LastTwo(hashOf, s1, steps[1], steps[2]);
  }

  /** A request up to what became of its action. */
  function ToAct(req: nat, hash: string, nonceHash: string, outcome: Outcome): seq<Step> {
    ToHold(req, hash, nonceHash) + [Act(req, outcome)]
  }

  lemma ActingRun(hashOf: Preimage -> string, s: Server, req: nat, hash: string, nonceHash: string, outcome: Outcome)
    requires CanHold(s, req, hash, nonceHash)
    ensures Run(hashOf, s, ToAct(req, hash, nonceHash, outcome)) == Next(hashOf, Held(s, req, hash, nonceHash), Act(req, outcome))
  {
    HoldingRun(hashOf, s, req, hash, nonceHash);
    RunSplits(hashOf, s, ToHold(req, hash, nonceHash), [Act(req, outcome)]);
    LastOne(hashOf, Held(s, req, hash, nonceHash), Act(req, outcome));
  }

  lemma LastTwo(hashOf: Preimage -> string, s: Server, a: Step, b: Step)
    ensures Run(hashOf, s, [a, b]) == Next(hashOf, Next(hashOf, s, a), b)
  {
    assert [a, b][1..] == [b];
    LastOne(hashOf, Next(hashOf, s, a), b);
  }

  function RowOf(tx: string): Quote {
    QuoteRow(100, DuplicateClaim, None, tx, Some("payer"), 0)
  }

  function HashOfRow(hashOf: Preimage -> string, tx: string): string {
    hashOf(PreimageOf(RowOf(tx)))
  }

  lemma QuotedRun(hashOf: Preimage -> string, s: Server, tx: string)
    requires HashOfRow(hashOf, tx) !in s.tables.quotes && !SettlementTaken(s.tables, HashOfRow(hashOf, tx), tx)
    ensures Run(hashOf, s, [QuoteStep(100, DuplicateClaim, None, tx, Some("payer"), 0)])
         == s.(tables := s.tables.(quotes := s.tables.quotes[HashOfRow(hashOf, tx) := RowOf(tx)]))
    ensures Acceptable(RowOf(tx), DuplicateClaim, false, None, 0)
  {
    var step := QuoteStep(100, DuplicateClaim, None, tx, Some("payer"), 0);
    assert [step][1..] == [];
    assert Run(hashOf, Next(hashOf, s, step), []) == Next(hashOf, s, step);
    QuoteRowIsConsistent(100, DuplicateClaim, None, tx, Some("payer"), 0);
    FreshnessExactly(RowOf(tx), None);
  }

  lemma OneQuoteEnds(hashOf: Preimage -> string, s: Server)
    requires s == START.(tables := Tables(map[HashOfRow(hashOf, "tx") := RowOf("tx")], {}))
    requires Acceptable(RowOf("tx"), DuplicateClaim, false, None, 0)
    ensures var hash := HashOfRow(hashOf, "tx");
            var s1 := Run(hashOf, s, ToAct(0, hash, "n0", ThrewAfter(7)));
            && s1.tables.quotes == s.tables.quotes && s1.tables.nonces == {"n0"} && s1.phases == map[0 := Stranded(hash, 7)]
            && CanHold(s1, 1, hash, "n1")
  {
    ActingRun(hashOf, s, 0, HashOfRow(hashOf, "tx"), "n0", ThrewAfter(7));
  }

  lemma OneQuoteEndsAgain(hashOf: Preimage -> string, s: Server, hash: string)
    requires CanHold(s, 1, hash, "n1") && s.tables.quotes.Keys == {hash} && At(s, 0) == Some(Stranded(hash, 7))
    ensures var s' := Run(hashOf, s, ToAct(1, hash, "n1", Returned(8)) + [Finish(1, 0)]);
            && At(s', 0) == Some(Stranded(hash, 7)) && At(s', 1) == Some(Succeeded(hash, 8))
            && s'.tables.quotes.Keys == {hash} && s'.tables.quotes[hash].consumedActionId == Some(8)
  {
    ActingRun(hashOf, s, 1, hash, "n1", Returned(8));
    RunSplits(hashOf, s, ToAct(1, hash, "n1", Returned(8)), [Finish(1, 0)]);
    LastOne(hashOf, Run(hashOf, s, ToAct(1, hash, "n1", Returned(8))), Finish(1, 0));
  }

  /** One payment, two executed actions: the first submit throws after action 7 executed, the second returns action 8. */
  lemma OneQuoteTwoActions(hashOf: Preimage -> string) returns (steps: seq<Step>)
    ensures var s := Run(hashOf, START, steps);
            var hash := HashOfRow(hashOf, "tx");
            && At(s, 0) == Some(Stranded(hash, 7)) && At(s, 1) == Some(Succeeded(hash, 8))
            && s.tables.quotes.Keys == {hash} && s.tables.quotes[hash].consumedActionId == Some(8)
  {
    var hash := HashOfRow(hashOf, "tx");
    var quote := [QuoteStep(100, DuplicateClaim, None, "tx", Some("payer"), 0)];
    var first, second := ToAct(0, hash, "n0", ThrewAfter(7)), ToAct(1, hash, "n1", Returned(8));
    steps := quote + (first + (second + [Finish(1, 0)]));
    QuotedRun(hashOf, START, "tx");
    var s0 := Run(hashOf, START, quote);
    RunSplits(hashOf, START, quote, first + (second + [Finish(1, 0)]));
    OneQuoteEnds(hashOf, s0);
    var s1 := Run(hashOf, s0, first);
    RunSplits(hashOf, s0, first, second + [Finish(1, 0)]);
    OneQuoteEndsAgain(hashOf, s1, hash);
  }

  lemma BothAct(hashOf: Preimage -> string, s: Server)
    requires HashOfRow(hashOf, "tx0") != HashOfRow(hashOf, "tx1")
    requires s == START.(tables := Tables(map[HashOfRow(hashOf, "tx0") := RowOf("tx0"), HashOfRow(hashOf, "tx1") := RowOf("tx1")], {}))
    requires Acceptable(RowOf("tx0"), DuplicateClaim, false, None, 0) && Acceptable(RowOf("tx1"), DuplicateClaim, false, None, 0)
    ensures var h0, h1 := HashOfRow(hashOf, "tx0"), HashOfRow(hashOf, "tx1");
            var s2 := Run(hashOf, s, ToAct(0, h0, "n0", Returned(7)) + ToAct(1, h1, "n1", Returned(7)));
            && At(s2, 0) == Some(Acted(h0, 7)) && At(s2, 1) == Some(Acted(h1, 7))
            && IsConsuming(s2.tables, h0) && IsConsuming(s2.tables, h1)
            && forall h :: h in s2.tables.quotes ==> s2.tables.quotes[h].consumedActionId.None?
  {
    var h0, h1 := HashOfRow(hashOf, "tx0"), HashOfRow(hashOf, "tx1");
    ActingRun(hashOf, s, 0, h0, "n0", Returned(7));
    var s1 := Run(hashOf, s, ToAct(0, h0, "n0", Returned(7)));
    ActingRun(hashOf, s1, 1, h1, "n1", Returned(7));
    RunSplits(hashOf, s, ToAct(0, h0, "n0", Returned(7)), ToAct(1, h1, "n1", Returned(7)));
  }

  /** Two payments, one action: both submits return action 7, and the second to finish finds it named by the first. */
  lemma TwoQuotesOneAction(hashOf: Preimage -> string) returns (steps: seq<Step>)
    requires HashOfRow(hashOf, "tx0") != HashOfRow(hashOf, "tx1")
    ensures var s := Run(hashOf, START, steps);
            var h0 := HashOfRow(hashOf, "tx0");
            && At(s, 0) == Some(Acted(h0, 7)) && ActionTaken(s.tables, h0, 7)
            && At(Next(hashOf, s, Finish(0, 0)), 0) == Some(Stranded(h0, 7))
            && h0 in Next(hashOf, s, Finish(0, 0)).tables.quotes
            && Next(hashOf, s, Finish(0, 0)).tables.quotes[h0].status == Paid
  {
    var h0, h1 := HashOfRow(hashOf, "tx0"), HashOfRow(hashOf, "tx1");
    var q0, q1 := [QuoteStep(100, DuplicateClaim, None, "tx0", Some("payer"), 0)],
      [QuoteStep(100, DuplicateClaim, None, "tx1", Some("payer"), 0)];
    var both := ToAct(0, h0, "n0", Returned(7)) + ToAct(1, h1, "n1", Returned(7));
    steps := q0 + (q1 + (both + [Finish(1, 0)]));
    QuotedRun(hashOf, START, "tx0");
    var s0 := Run(hashOf, START, q0);
    RunSplits(hashOf, START, q0, q1 + (both + [Finish(1, 0)]));
    QuotedRun(hashOf, s0, "tx1");
    var s1 := Run(hashOf, s0, q1);
    RunSplits(hashOf, s0, q1, both + [Finish(1, 0)]);
    BothAct(hashOf, s1);
    var s2 := Run(hashOf, s1, both);
    RunSplits(hashOf, s1, both, [Finish(1, 0)]);
    LastOne(hashOf, s2, Finish(1, 0));
    assert Next(hashOf, s2, Finish(1, 0)).tables.quotes[h1].consumedActionId == Some(7);
  }
}
