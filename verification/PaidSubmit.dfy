// `/v1/actions/submit` under any interleaving: each request checks a quote, spends a nonce, reserves the quote,
// acts, and consumes the quote or releases it. Other requests, and re-quotes, may run between any two steps.
module PaidSubmit {
  import opened Common
  import opened Quotes
  import Policy
  import Pricing

  datatype Phase =
    | Checked(hash: string)
    | Authorized(hash: string)
    | Holding(hash: string)
    | Acted(hash: string, actionId: nat)
    | Succeeded(hash: string, actionId: nat)
    /** Ended in an error although its action was executed on chain. */
    | Stranded(hash: string, actionId: nat)
    | Rejected

  /** What became of submitting the bonded action: it returned the action; it threw after the action had executed on
      chain, while waiting for it, checking its window or storing the run; or it threw with nothing executed. */
  datatype Outcome = Returned(actionId: nat) | ThrewAfter(actionId: nat) | ThrewBefore

  datatype Server = Server(tables: Tables, phases: map<nat, Phase>, passed: seq<string>)

  datatype Step =
    /** A settled payment: `quoteResponse` prices it and upserts its row. */
    | QuoteStep(amount: nat, faultClass: FaultClass, score: Option<int>, tx: string, payer: Option<string>, now: nat)
    | Check(req: nat, hash: string, faultClass: FaultClass, hasBuyerKey: bool, score: Option<int>, now: nat)
    | Authorize(req: nat, genuine: bool, nonceHash: string)
    | ReserveQuote(req: nat, payloadHash: string)
    | Act(req: nat, outcome: Outcome)
    | Finish(req: nat, now: nat)

  predicate Acceptable(row: Quote, faultClass: FaultClass, hasBuyerKey: bool, score: Option<int>, now: nat) {
    && row.status.Paid?
    && row.expiry > now
    && row.faultClass == faultClass
    && (faultClass.DeliveryContradiction? ==> hasBuyerKey)
    && row.payer.Some?
    && PolicyFresh(row, score)
  }

  function At(s: Server, req: nat): Option<Phase> {
    if req in s.phases then Some(s.phases[req]) else None
  }

  function Go(s: Server, req: nat, t: Tables, p: Phase): Server {
    s.(tables := t, phases := s.phases[req := p])
  }

  /** Each request takes its own steps in order; a step that is not its next one does nothing. */
  function Next(hashOf: Preimage -> string, s: Server, step: Step): Server {
    match step
    case QuoteStep(amount, faultClass, score, tx, payer, now) =>
      if amount == 0 then s
      else
        var row := QuoteRow(amount, faultClass, score, tx, payer, now);
        (match Upsert(s.tables, hashOf(PreimageOf(row)), row)
         case Written(t) => s.(tables := t)
         case ConstraintFailed => s)
    case Check(req, hash, faultClass, hasBuyerKey, score, now) =>
      if At(s, req).Some? then s
      else if hash in s.tables.quotes && Acceptable(s.tables.quotes[hash], faultClass, hasBuyerKey, score, now)
      then Go(s, req, s.tables, Checked(hash))
      else Go(s, req, s.tables, Rejected)
    case Authorize(req, genuine, nonceHash) =>
      (match At(s, req)
       case Some(Checked(hash)) =>
         if !genuine then Go(s, req, s.tables, Rejected)
         else
           var (t, first) := UseNonce(s.tables, nonceHash);
           if first then Go(s, req, t, Authorized(hash)).(passed := s.passed + [nonceHash])
           else Go(s, req, t, Rejected)
       case _ => s)
    case ReserveQuote(req, payloadHash) =>
      (match At(s, req)
       case Some(Authorized(hash)) =>
         var (t, reserved) := Reserve(s.tables, hash, payloadHash);
         Go(s, req, t, if reserved then Holding(hash) else Rejected)
       case _ => s)
    case Act(req, outcome) =>
      (match At(s, req)
       case Some(Holding(hash)) =>
         (match outcome
          case Returned(actionId) => Go(s, req, s.tables, Acted(hash, actionId))
          case ThrewAfter(actionId) => Go(s, req, Release(s.tables, hash), Stranded(hash, actionId))
          case ThrewBefore => Go(s, req, Release(s.tables, hash), Rejected))
       case _ => s)
    case Finish(req, now) =>
      (match At(s, req)
       case Some(Acted(hash, actionId)) =>
         (match Consume(s.tables, hash, actionId, now)
          case Written(t) => Go(s, req, t, Succeeded(hash, actionId))
          case ConstraintFailed => Go(s, req, Release(s.tables, hash), Stranded(hash, actionId)))
       case _ => s)
  }

  function Run(hashOf: Preimage -> string, s: Server, steps: seq<Step>): Server
    decreases steps
  {
    if steps == [] then s else Run(hashOf, Next(hashOf, s, steps[0]), steps[1..])
  }

  lemma {:induction false} RunSplits(hashOf: Preimage -> string, s: Server, a: seq<Step>, b: seq<Step>)
    ensures Run(hashOf, s, a + b) == Run(hashOf, Run(hashOf, s, a), b)
    decreases a
  {
    if a == [] {
      assert a + b == b;
    } else {
      assert (a + b)[1..] == a[1..] + b;
      RunSplits(hashOf, Next(hashOf, s, a[0]), a[1..], b);
    }
  }

  lemma LastOne(hashOf: Preimage -> string, s: Server, a: Step)
    ensures Run(hashOf, s, [a]) == Next(hashOf, s, a)
  {
    assert [a][1..] == [];
    assert Run(hashOf, Next(hashOf, s, a), []) == Next(hashOf, s, a);
  }

  // ---- Invariant ------------------------------------------------------------------------------

  /** Request `req` has the quote to itself. */
  predicate Holds(s: Server, req: nat, hash: string) {
    req in s.phases && (s.phases[req] == Holding(hash) || (s.phases[req].Acted? && s.phases[req].hash == hash))
  }

  predicate IsConsuming(t: Tables, hash: string) {
    hash in t.quotes && t.quotes[hash].status.Consuming?
  }

  predicate Done(s: Server, req: nat, hash: string, actionId: nat) {
    req in s.phases && s.phases[req] == Succeeded(hash, actionId)
  }

  ghost predicate Exclusive(s: Server) {
    && (forall req, h :: Holds(s, req, h) ==> IsConsuming(s.tables, h))
    && (forall r1, r2, h :: Holds(s, r1, h) && Holds(s, r2, h) ==> r1 == r2)
    && (forall h :: IsConsuming(s.tables, h) ==> exists req :: Holds(s, req, h))
  }

  ghost predicate Settled(s: Server) {
    && (forall req, h, a: nat :: Done(s, req, h, a) ==>
          h in s.tables.quotes && s.tables.quotes[h].status.Consumed? && s.tables.quotes[h].consumedActionId == Some(a))
    && (forall r1, r2, h, a, b :: Done(s, r1, h, a) && Done(s, r2, h, b) ==> r1 == r2)
  }

  ghost predicate Unique(t: Tables) {
    && (forall h :: h in t.quotes ==> (t.quotes[h].status.Consumed? <==> t.quotes[h].consumedActionId.Some?))
    && (forall h1, h2 :: h1 in t.quotes && h2 in t.quotes && t.quotes[h1].settlementTx == t.quotes[h2].settlementTx ==> h1 == h2)
    && (forall h1, h2 | h1 in t.quotes && h2 in t.quotes && t.quotes[h1].consumedActionId.Some? ::
          t.quotes[h1].consumedActionId == t.quotes[h2].consumedActionId ==> h1 == h2)
  }

  ghost predicate NoncesOnce(s: Server) {
    && (forall x :: x in s.passed ==> x in s.tables.nonces)
    && (forall i, j :: 0 <= i < j < |s.passed| ==> s.passed[i] != s.passed[j])
  }

  ghost predicate Priced(hashOf: Preimage -> string, t: Tables) {
    forall h :: h in t.quotes ==> Consistent(t.quotes[h]) && h == hashOf(PreimageOf(t.quotes[h]))
  }

  ghost predicate Good(s: Server) {
    Exclusive(s) && Settled(s) && Unique(s.tables) && NoncesOnce(s)
  }

  lemma UpsertKeepsUnique(t: Tables, hash: string, row: Quote)
    requires Unique(t) && row.consumedActionId.None? && row.status.Paid? && Upsert(t, hash, row).Written?
    ensures Unique(Upsert(t, hash, row).tables)
  {
  }

  lemma ReserveReleaseKeepUnique(t: Tables, hash: string, payloadHash: string)
    requires Unique(t)
    ensures Unique(Reserve(t, hash, payloadHash).0) && Unique(Release(t, hash))
  {
  }

  lemma ConsumeKeepsUnique(t: Tables, hash: string, actionId: nat, now: nat)
    requires Unique(t) && Consume(t, hash, actionId, now).Written?
    ensures Unique(Consume(t, hash, actionId, now).tables)
  {
  }

  lemma StepKeepsUnique(hashOf: Preimage -> string, s: Server, step: Step)
    requires Unique(s.tables)
    ensures Unique(Next(hashOf, s, step).tables)
  {
    match step
    case QuoteStep(amount, faultClass, score, tx, payer, now) =>
      var row := QuoteRow(amount, faultClass, score, tx, payer, now);
      if Upsert(s.tables, hashOf(PreimageOf(row)), row).Written? {
        UpsertKeepsUnique(s.tables, hashOf(PreimageOf(row)), row);
      }
    case ReserveQuote(req, payloadHash) =>
      if At(s, req).Some? && At(s, req).value.Authorized? {
        ReserveReleaseKeepUnique(s.tables, At(s, req).value.hash, payloadHash);
      }
    case Act(req, _) =>
      if At(s, req).Some? && At(s, req).value.Holding? {
        ReserveReleaseKeepUnique(s.tables, At(s, req).value.hash, "");
      }
    case Finish(req, now) =>
      if At(s, req).Some? && At(s, req).value.Acted? {
        var Acted(hash, actionId) := At(s, req).value;
        ReserveReleaseKeepUnique(s.tables, hash, "");
        if Consume(s.tables, hash, actionId, now).Written? {
          ConsumeKeepsUnique(s.tables, hash, actionId, now);
        }
      }
    case _ =>
  }

  /** Only the stepping request changes its hold, and only its own quote changes between consuming and not. */
  ghost predicate OnlyMoves(s: Server, s': Server, req: nat, hash: string) {
    && (forall r, h :: r != req ==> (Holds(s', r, h) <==> Holds(s, r, h)))
    && (forall h :: h != hash ==> (IsConsuming(s'.tables, h) <==> IsConsuming(s.tables, h)))
    && (forall h :: h != hash ==> !Holds(s, req, h) && !Holds(s', req, h))
    && (Holds(s', req, hash) <==> IsConsuming(s'.tables, hash))
    && (Holds(s, req, hash) <==> IsConsuming(s.tables, hash))
  }

  lemma MoveKeepsExclusive(s: Server, s': Server, req: nat, hash: string)
    requires Exclusive(s) && OnlyMoves(s, s', req, hash)
    ensures Exclusive(s')
  {
    forall h | IsConsuming(s'.tables, h) ensures exists r :: Holds(s', r, h) {
      if h == hash {
        assert Holds(s', req, h);
      } else {
        var r :| Holds(s, r, h);
        assert Holds(s', r, h);
      }
    }
  }

  lemma StandsStill(s: Server, s': Server)
    requires Exclusive(s)
    requires forall r, h :: Holds(s', r, h) <==> Holds(s, r, h)
    requires forall h :: IsConsuming(s'.tables, h) <==> IsConsuming(s.tables, h)
    ensures Exclusive(s')
  {
    forall h | IsConsuming(s'.tables, h) ensures exists r :: Holds(s', r, h) {
      var r :| Holds(s, r, h);
      assert Holds(s', r, h);
    }
  }

  lemma ReservingKeepsExclusive(hashOf: Preimage -> string, s: Server, step: Step)
    requires Exclusive(s) && step.ReserveQuote?
    ensures Exclusive(Next(hashOf, s, step))
  {
    var s', req := Next(hashOf, s, step), step.req;
    if At(s, req).Some? && At(s, req).value.Authorized? && s'.phases[req].Holding? {
      var hash := At(s, req).value.hash;
      assert !IsConsuming(s.tables, hash) && !Holds(s, req, hash);
      MoveKeepsExclusive(s, s', req, hash);
    } else {
      StandsStill(s, s');
    }
  }

  lemma ActingKeepsExclusive(hashOf: Preimage -> string, s: Server, step: Step)
    requires Exclusive(s) && step.Act?
    ensures Exclusive(Next(hashOf, s, step))
  {
    var s', req := Next(hashOf, s, step), step.req;
    if At(s, req).Some? && At(s, req).value.Holding? && !s'.phases[req].Acted? {
      assert Holds(s, req, At(s, req).value.hash);
      MoveKeepsExclusive(s, s', req, At(s, req).value.hash);
    } else {
      StandsStill(s, s');
    }
  }

  lemma FinishingKeepsExclusive(hashOf: Preimage -> string, s: Server, step: Step)
    requires Exclusive(s) && step.Finish?
    ensures Exclusive(Next(hashOf, s, step))
  {
    var s', req := Next(hashOf, s, step), step.req;
    if At(s, req).Some? && At(s, req).value.Acted? {
      assert Holds(s, req, At(s, req).value.hash);
      MoveKeepsExclusive(s, s', req, At(s, req).value.hash);
    } else {
      StandsStill(s, s');
    }
  }

  lemma StepKeepsExclusive(hashOf: Preimage -> string, s: Server, step: Step)
    requires Exclusive(s)
    ensures Exclusive(Next(hashOf, s, step))
  {
    match step
    case ReserveQuote(_, _) => ReservingKeepsExclusive(hashOf, s, step);
    case Act(_, _) => ActingKeepsExclusive(hashOf, s, step);
    case Finish(_, _) => FinishingKeepsExclusive(hashOf, s, step);
    case _ => StandsStill(s, Next(hashOf, s, step));
  }

  /** What is consumed stays as it was consumed, whatever else happens, re-quoting included. */
  lemma ConsumedIsAbsorbing(hashOf: Preimage -> string, s: Server, step: Step, hash: string)
    requires hash in s.tables.quotes && s.tables.quotes[hash].status.Consumed?
    ensures var t := Next(hashOf, s, step).tables;
            && hash in t.quotes && t.quotes[hash].status.Consumed?
            && t.quotes[hash].consumedActionId == s.tables.quotes[hash].consumedActionId
            && t.quotes[hash].consumedAt == s.tables.quotes[hash].consumedAt
            && t.quotes[hash].submitPayloadHash == s.tables.quotes[hash].submitPayloadHash
  {
  }

  lemma StepKeepsSettled(hashOf: Preimage -> string, s: Server, step: Step)
    requires Exclusive(s) && Settled(s)
    ensures Settled(Next(hashOf, s, step))
  {
    var s' := Next(hashOf, s, step);
    forall req, h, a: nat | Done(s', req, h, a)
      ensures h in s'.tables.quotes && s'.tables.quotes[h].status.Consumed? && s'.tables.quotes[h].consumedActionId == Some(a)
    {
      if Done(s, req, h, a) {
        ConsumedIsAbsorbing(hashOf, s, step, h);
      } else {
        assert Holds(s, req, h);
      }
    }
    forall r1, r2, h, a: nat, b: nat | Done(s', r1, h, a) && Done(s', r2, h, b) ensures r1 == r2 {
      assert Done(s, r1, h, a) || Holds(s, r1, h);
      assert Done(s, r2, h, b) || Holds(s, r2, h);
    }
  }

  lemma StepKeepsNonces(hashOf: Preimage -> string, s: Server, step: Step)
    requires NoncesOnce(s)
    ensures NoncesOnce(Next(hashOf, s, step))
  {
  }

  /** Same rows but for what became of them: their terms and snapshots are untouched. */
  ghost predicate SameTerms(t: Tables, t': Tables) {
    forall h :: h in t'.quotes ==>
      h in t.quotes && PreimageOf(t'.quotes[h]) == PreimageOf(t.quotes[h]) && t'.quotes[h].snapshot == t.quotes[h].snapshot
  }

  lemma SubmittingKeepsTerms(hashOf: Preimage -> string, s: Server, step: Step)
    requires !step.QuoteStep?
    ensures SameTerms(s.tables, Next(hashOf, s, step).tables)
  {
  }

  lemma UpsertKeepsPriced(hashOf: Preimage -> string, t: Tables, row: Quote)
    requires forall x, y :: hashOf(x) == hashOf(y) ==> x == y
    requires Priced(hashOf, t) && Consistent(row) && Upsert(t, hashOf(PreimageOf(row)), row).Written?
    ensures Priced(hashOf, Upsert(t, hashOf(PreimageOf(row)), row).tables)
  {
  }

  /** With hashes that never collide, every row still tells the price it was quoted at. */
  lemma StepKeepsPriced(hashOf: Preimage -> string, s: Server, step: Step)
    requires forall x, y :: hashOf(x) == hashOf(y) ==> x == y
    requires Priced(hashOf, s.tables)
    ensures Priced(hashOf, Next(hashOf, s, step).tables)
  {
    if step.QuoteStep? {
      var QuoteStep(amount, faultClass, score, tx, payer, now) := step;
      var row := QuoteRow(amount, faultClass, score, tx, payer, now);
      if amount > 0 && Upsert(s.tables, hashOf(PreimageOf(row)), row).Written? {
        QuoteRowIsConsistent(amount, faultClass, score, tx, payer, now);
        UpsertKeepsPriced(hashOf, s.tables, row);
      }
    } else {
      SubmittingKeepsTerms(hashOf, s, step);
    }
  }

  lemma {:induction false} RunKeepsGood(hashOf: Preimage -> string, s: Server, steps: seq<Step>)
    requires Good(s)
    ensures Good(Run(hashOf, s, steps))
    decreases steps
  {
    if steps != [] {
      StepKeepsUnique(hashOf, s, steps[0]);
      StepKeepsExclusive(hashOf, s, steps[0]);
      StepKeepsSettled(hashOf, s, steps[0]);
      StepKeepsNonces(hashOf, s, steps[0]);
      RunKeepsGood(hashOf, Next(hashOf, s, steps[0]), steps[1..]);
    }
  }

  const START: Server := Server(Tables(map[], {}), map[], [])

  // ---- What every interleaving keeps ----------------------------------------------------------

  /** At most one request holds a quote, and a quote is `consuming` exactly while one does. */
  lemma QuotesAreExclusive(hashOf: Preimage -> string, steps: seq<Step>)
    ensures var s := Run(hashOf, START, steps);
            && (forall h :: IsConsuming(s.tables, h) <==> exists req :: Holds(s, req, h))
            && (forall r1, r2, h :: Holds(s, r1, h) && Holds(s, r2, h) ==> r1 == r2)
  {
    RunKeepsGood(hashOf, START, steps);
  }

  /** Successful submits are a bijection between quotes and actions: no two share a quote, no two share an action,
      and each quote's row names its action. */
  lemma SuccessesAreInjective(hashOf: Preimage -> string, steps: seq<Step>, r1: nat, h1: string, a1: nat, r2: nat, h2: string, a2: nat)
    requires Done(Run(hashOf, START, steps), r1, h1, a1) && Done(Run(hashOf, START, steps), r2, h2, a2)
    ensures h1 in Run(hashOf, START, steps).tables.quotes
    ensures Run(hashOf, START, steps).tables.quotes[h1].consumedActionId == Some(a1)
    ensures r1 != r2 ==> h1 != h2 && a1 != a2
  {
    RunKeepsGood(hashOf, START, steps);
  }

  /** One settlement transaction backs at most one quote. */
  lemma OneQuotePerSettlement(hashOf: Preimage -> string, steps: seq<Step>, h1: string, h2: string)
    requires h1 in Run(hashOf, START, steps).tables.quotes && h2 in Run(hashOf, START, steps).tables.quotes
    requires Run(hashOf, START, steps).tables.quotes[h1].settlementTx == Run(hashOf, START, steps).tables.quotes[h2].settlementTx
    ensures h1 == h2
  {
    RunKeepsGood(hashOf, START, steps);
  }

  /** An authorization nonce passes at most once. */
  lemma NoncesPassOnce(hashOf: Preimage -> string, steps: seq<Step>, i: nat, j: nat)
    requires i < j < |Run(hashOf, START, steps).passed|
    ensures Run(hashOf, START, steps).passed[i] != Run(hashOf, START, steps).passed[j]
  {
    RunKeepsGood(hashOf, START, steps);
  }

  lemma {:induction false} ConsumedForEver(hashOf: Preimage -> string, s: Server, steps: seq<Step>, hash: string)
    requires hash in s.tables.quotes && s.tables.quotes[hash].status.Consumed?
    ensures var t := Run(hashOf, s, steps).tables;
            && hash in t.quotes && t.quotes[hash].status.Consumed?
            && t.quotes[hash].consumedActionId == s.tables.quotes[hash].consumedActionId
    decreases steps
  {
    if steps != [] {
      ConsumedIsAbsorbing(hashOf, s, steps[0], hash);
      ConsumedForEver(hashOf, Next(hashOf, s, steps[0]), steps[1..], hash);
    }
  }

  lemma {:induction false} RunKeepsPriced(hashOf: Preimage -> string, s: Server, steps: seq<Step>)
    requires forall x, y :: hashOf(x) == hashOf(y) ==> x == y
    requires Priced(hashOf, s.tables)
    ensures Priced(hashOf, Run(hashOf, s, steps).tables)
    decreases steps
  {
    if steps != [] {
      StepKeepsPriced(hashOf, s, steps[0]);
      RunKeepsPriced(hashOf, Next(hashOf, s, steps[0]), steps[1..]);
    }
  }

  /** In every reachable state with collision-free hashes, a stored quote passes the freshness check exactly while the
      current price covers its own, and never fails it while the agent's debt of reputation has not shrunk. */
  lemma StoredQuotesStayFresh(hashOf: Preimage -> string, steps: seq<Step>, hash: string, currentScore: Option<int>)
    requires forall x, y :: hashOf(x) == hashOf(y) ==> x == y
    requires hash in Run(hashOf, START, steps).tables.quotes
    ensures var row := Run(hashOf, START, steps).tables.quotes[hash];
            var current := if currentScore.Some? then currentScore.value else Policy.DEFAULT_SCORE;
            && row.snapshot.Some?
            && (PolicyFresh(row, currentScore) <==>
                  Pricing.BondRequired(row.amount, current) >= Pricing.BondRequired(row.amount, row.snapshot.value.score))
            && (var quoted := row.snapshot.value.score;
                (if current < 0 then current else 0) <= (if quoted < 0 then quoted else 0) ==> PolicyFresh(row, currentScore))
  {
    RunKeepsPriced(hashOf, START, steps);
    FreshnessExactly(Run(hashOf, START, steps).tables.quotes[hash], currentScore);
  }

  /** The action a request has executed on chain. */
  function OnChain(s: Server, req: nat): Option<nat> {
    match At(s, req)
    case Some(Acted(_, actionId)) => Some(actionId)
    case Some(Succeeded(_, actionId)) => Some(actionId)
    case Some(Stranded(_, actionId)) => Some(actionId)
    case _ => None
  }

  predicate Ended(s: Server, req: nat) {
    At(s, req).Some? && (s.phases[req].Succeeded? || s.phases[req].Stranded? || s.phases[req].Rejected?)
  }

  /** The step that ends request `req`, with its action on chain, throws after executing it. */
  predicate ThrowsAfter(step: Step) {
    step.Act? && step.outcome.ThrewAfter?
  }

  /** When a request whose action reached the chain ends, its quote is either consumed for that action or paid again,
      free to back a second action; paid again exactly when submitting threw after the action had executed, or another
      quote already names the action. */
  lemma StrandedExactly(hashOf: Preimage -> string, steps: seq<Step>, step: Step, req: nat)
    requires var s := Run(hashOf, START, steps);
             !Ended(s, req) && Ended(Next(hashOf, s, step), req) && OnChain(Next(hashOf, s, step), req).Some?
    ensures var s := Run(hashOf, START, steps);
            var s' := Next(hashOf, s, step);
            var hash, actionId := s'.phases[req].hash, OnChain(s', req).value;
            && hash in s.tables.quotes && hash in s'.tables.quotes
            && (s'.tables.quotes[hash].status == Paid <==> ThrowsAfter(step) || ActionTaken(s.tables, hash, actionId))
            && (s'.phases[req].Stranded? <==> s'.tables.quotes[hash].status == Paid)
            && (s'.phases[req].Succeeded? <==>
                  s'.tables.quotes[hash].status == Consumed && s'.tables.quotes[hash].consumedActionId == Some(actionId))
            && (s'.tables.quotes[hash].status == Paid || s'.tables.quotes[hash].status == Consumed)
  {
    RunKeepsGood(hashOf, START, steps);
    var s := Run(hashOf, START, steps);
    assert Holds(s, req, s.phases[req].hash);
  }

  /** Finishing alone: it fails exactly when another quote already names the action. */
  lemma FinishFailsExactly(hashOf: Preimage -> string, steps: seq<Step>, req: nat, now: nat)
    requires req in Run(hashOf, START, steps).phases && Run(hashOf, START, steps).phases[req].Acted?
    ensures var s := Run(hashOf, START, steps);
            var s' := Next(hashOf, s, Finish(req, now));
            var Acted(hash, actionId) := s.phases[req];
            && hash in s'.tables.quotes
            && (s'.phases[req] == Stranded(hash, actionId) <==> ActionTaken(s.tables, hash, actionId))
            && (s'.phases[req] == Succeeded(hash, actionId) <==> !ActionTaken(s.tables, hash, actionId))
            && s'.tables.quotes[hash].status == (if ActionTaken(s.tables, hash, actionId) then Paid else Consumed)
  {
    var s := Run(hashOf, START, steps);
    RunKeepsGood(hashOf, START, steps);
    assert Holds(s, req, s.phases[req].hash);
  }

  /** The route as it runs: one repository, and the requests in flight. */
  class SubmitRoute {
    const repository: Repository
    const hashOf: Preimage -> string
    var phases: map<nat, Phase>
    ghost var passed: seq<string>

    ghost function State(): Server
      reads this, repository
    {
      Server(repository.View(), phases, passed)
    }

    constructor (repository: Repository, hashOf: Preimage -> string)
      ensures this.repository == repository && this.hashOf == hashOf
      ensures State() == Server(repository.View(), map[], [])
    {
      this.repository, this.hashOf, phases, passed := repository, hashOf, map[], [];
    }

    method QuoteAction(amount: nat, faultClass: FaultClass, score: Option<int>, tx: string, payer: Option<string>, now: nat)
      modifies repository
      ensures State() == Next(hashOf, old(State()), QuoteStep(amount, faultClass, score, tx, payer, now))
    {
      if amount > 0 {
        var row := QuoteRow(amount, faultClass, score, tx, payer, now);
        var _ := repository.UpsertPaidQuote(hashOf(PreimageOf(row)), row);
      }
    }

    method CheckQuote(req: nat, hash: string, faultClass: FaultClass, hasBuyerKey: bool, score: Option<int>, now: nat)
      requires req !in phases
      modifies this
      ensures State() == Next(hashOf, old(State()), Check(req, hash, faultClass, hasBuyerKey, score, now))
    {
      var found := hash in repository.quotes;
      if found && Acceptable(repository.quotes[hash], faultClass, hasBuyerKey, score, now) {
        phases := phases[req := Checked(hash)];
      } else {
        phases := phases[req := Rejected];
      }
    }

    method SpendNonce(req: nat, genuine: bool, nonceHash: string)
      requires req in phases && phases[req].Checked?
      modifies this, repository
      ensures State() == Next(hashOf, old(State()), Authorize(req, genuine, nonceHash))
    {
      var first := false;
      if genuine {
        first := repository.UseSubmitAuthorizationNonce(nonceHash);
      }
      if first {
        passed := passed + [nonceHash];
        phases := phases[req := Authorized(phases[req].hash)];
      } else {
        phases := phases[req := Rejected];
      }
    }

    method HoldQuote(req: nat, payloadHash: string)
      requires req in phases && phases[req].Authorized?
      modifies this, repository
      ensures State() == Next(hashOf, old(State()), ReserveQuote(req, payloadHash))
    {
      var reserved := repository.ReservePaidQuote(phases[req].hash, payloadHash);
      phases := phases[req := if reserved then Holding(phases[req].hash) else Rejected];
    }

    method SubmitPaidAction(req: nat, outcome: Outcome)
      requires req in phases && phases[req].Holding?
      modifies this, repository
      ensures State() == Next(hashOf, old(State()), Act(req, outcome))
    {
      var hash := phases[req].hash;
      if outcome.Returned? {
        phases := phases[req := Acted(hash, outcome.actionId)];
      } else {
        repository.ReleasePaidQuote(hash);
        phases := phases[req := if outcome.ThrewAfter? then Stranded(hash, outcome.actionId) else Rejected];
      }
    }

    method FinishSubmit(req: nat, now: nat)
      requires req in phases && phases[req].Acted?
      modifies this, repository
      ensures State() == Next(hashOf, old(State()), Finish(req, now))
    {
      var Acted(hash, actionId) := phases[req];
      var ok := repository.ConsumePaidQuote(hash, actionId, now);
      if ok {
        phases := phases[req := Succeeded(hash, actionId)];
      } else {
        repository.ReleasePaidQuote(hash);
        phases := phases[req := Stranded(hash, actionId)];
      }
    }
  }
}
