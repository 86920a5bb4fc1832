// What a request must have passed to get where it is: when its check succeeds, and the steps behind every hold.
module SubmitHistory {
  import opened Common
  import opened Quotes
  import opened PaidSubmit
  import Pricing

  // ---- One step -------------------------------------------------------------------------------

  /** A check passes exactly when the quote exists, is paid, has not expired, is for the same fault class, with a buyer
      key if that is a delivery contradiction, names its payer, agrees with its own snapshot if it has one, and its
      bond is covered by the price at the current score, taken as -20 if unknown. It changes no table. */
  lemma CheckPassesExactly(hashOf: Preimage -> string, s: Server, req: nat, hash: string, faultClass: FaultClass,
                           hasBuyerKey: bool, score: Option<int>, now: nat)
    requires req !in s.phases
    ensures var s' := Next(hashOf, s, Check(req, hash, faultClass, hasBuyerKey, score, now));
            && s'.tables == s.tables && s'.phases.Keys == s.phases.Keys + {req}
            && (s'.phases[req] == Checked(hash) || s'.phases[req] == Rejected)
            && (s'.phases[req] == Checked(hash) <==>
                  && hash in s.tables.quotes
                  && (var q := s.tables.quotes[hash];
                      && q.status == Paid
                      && now < q.expiry
                      && q.faultClass == faultClass
                      && (faultClass == DuplicateClaim || hasBuyerKey)
                      && q.payer != None
                      && (q.snapshot == None
                          || (&& q.snapshot.value.amount == q.amount && q.snapshot.value.faultClass == q.faultClass
                              && q.snapshot.value.quotedMinimumBond == q.requiredBond))
                      && q.amount > 0
                      && Pricing.BondRequired(q.amount, if score == None then -20 else score.value) >= q.requiredBond))
  {
  }

  /** A checked request is authorized exactly by a genuine signature over a nonce never used before, which it uses up. */
  lemma AuthorizePassesExactly(hashOf: Preimage -> string, s: Server, req: nat, genuine: bool, nonceHash: string)
    requires req in s.phases && s.phases[req].Checked?
    ensures var s' := Next(hashOf, s, Authorize(req, genuine, nonceHash));
            && (s'.phases[req] == Authorized(s.phases[req].hash) <==> genuine && nonceHash !in s.tables.nonces)
            && (s'.phases[req] == Rejected <==> !genuine || nonceHash in s.tables.nonces)
            && s'.tables.quotes == s.tables.quotes
            && s'.tables.nonces == if genuine then s.tables.nonces + {nonceHash} else s.tables.nonces
  {
  }

  /** An authorized request holds its quote exactly if it is still paid and names no action; only its row then changes,
      and it remembers the payload. Releasing it puts back the row as it was, but for a payload remembered before. */
  lemma ReservePassesExactly(hashOf: Preimage -> string, s: Server, req: nat, payloadHash: string)
    requires req in s.phases && s.phases[req].Authorized?
    ensures var s', hash := Next(hashOf, s, ReserveQuote(req, payloadHash)), s.phases[req].hash;
            && s'.tables.nonces == s.tables.nonces && s'.tables.quotes.Keys == s.tables.quotes.Keys
            && (forall h :: h in s.tables.quotes && h != hash ==> s'.tables.quotes[h] == s.tables.quotes[h])
            && (s'.phases[req] == Holding(hash) <==>
                  hash in s.tables.quotes && s.tables.quotes[hash].status == Paid && s.tables.quotes[hash].consumedActionId == None)
            && (s'.phases[req] == Rejected <==> s'.phases[req] != Holding(hash))
            && (s'.phases[req] == Rejected ==> s'.tables == s.tables)
            && (s'.phases[req] == Holding(hash) ==>
                  && s'.tables.quotes[hash].submitPayloadHash == Some(payloadHash)
                  && (var row := s.tables.quotes[hash].(submitPayloadHash := None);
                      Release(s'.tables, hash) == s.tables.(quotes := s.tables.quotes[hash := row])))
  {
  }

  /** A re-quote of a stored hash refreshes its terms, expiry and payer, and keeps status, payload, action, time of
      consumption and first snapshot; no other row changes. A settlement that backs another row is refused. */
  lemma RequoteExactly(t: Tables, hash: string, row: Quote)
    requires hash in t.quotes
    ensures Upsert(t, hash, row).ConstraintFailed? <==>
              exists h :: h in t.quotes && h != hash && t.quotes[h].settlementTx == row.settlementTx
    ensures Upsert(t, hash, row).Written? ==>
              var t' := Upsert(t, hash, row).tables;
              && t'.nonces == t.nonces && t'.quotes.Keys == t.quotes.Keys
              && (forall h :: h in t.quotes && h != hash ==> t'.quotes[h] == t.quotes[h])
              && (var before, after := t.quotes[hash], t'.quotes[hash];
                  && after.faultClass == row.faultClass && after.amount == row.amount && after.requiredBond == row.requiredBond
                  && after.expiry == row.expiry && after.payer == row.payer && after.settlementTx == row.settlementTx
                  && after.status == before.status && after.submitPayloadHash == before.submitPayloadHash
                  && after.consumedActionId == before.consumedActionId && after.consumedAt == before.consumedAt
                  && after.snapshot == (if before.snapshot != None then before.snapshot else row.snapshot))
  {
  }

  /** A finished request that succeeds marks its own row consumed, for its action and at that time, and leaves every
      other column and row alone. */
  lemma SuccessWrites(hashOf: Preimage -> string, steps: seq<Step>, req: nat, now: nat)
    requires req in Run(hashOf, START, steps).phases && Run(hashOf, START, steps).phases[req].Acted?
    requires Next(hashOf, Run(hashOf, START, steps), Finish(req, now)).phases[req].Succeeded?
    ensures var s := Run(hashOf, START, steps);
            var Acted(hash, actionId) := s.phases[req];
            && hash in s.tables.quotes && s.tables.quotes[hash].status == Consuming
            && Next(hashOf, s, Finish(req, now)).tables
               == s.tables.(quotes := s.tables.quotes[hash := s.tables.quotes[hash].(
                    status := Consumed, consumedActionId := Some(actionId), consumedAt := Some(now))])
  {
    var s := Run(hashOf, START, steps);
    RunKeepsGood(hashOf, START, steps);
    assert Holds(s, req, s.phases[req].hash);
  }

  // ---- Whole runs -----------------------------------------------------------------------------

  /** Step `j` quoted `hash`, with an expiry 900 000 milliseconds later. */
  ghost predicate QuotedAt(hashOf: Preimage -> string, steps: seq<Step>, j: int, hash: string, expiry: nat) {
    && 0 <= j < |steps| && steps[j].QuoteStep? && steps[j].amount > 0
    && (var q := steps[j];
        hash == hashOf(PreimageOf(QuoteRow(q.amount, q.faultClass, q.score, q.tx, q.payer, q.now))) && expiry == q.now + 900_000)
  }

  /** Step `i` checked `hash` for the request, before the expiry set by an earlier quoting of it. */
  ghost predicate CheckedAt(hashOf: Preimage -> string, steps: seq<Step>, i: int, req: nat, hash: string) {
    && 0 <= i < |steps| && steps[i].Check? && steps[i].req == req && steps[i].hash == hash
    && exists j, expiry :: j < i && QuotedAt(hashOf, steps, j, hash, expiry) && steps[i].now < expiry
  }

  /** Step `m`, after check `i`, authorized the request with a genuine signature. */
  ghost predicate AdmittedAt(hashOf: Preimage -> string, steps: seq<Step>, i: int, m: int, req: nat, hash: string) {
    && CheckedAt(hashOf, steps, i, req, hash)
    && i < m < |steps| && steps[m].Authorize? && steps[m].req == req && steps[m].genuine
  }

  ghost predicate Passed(hashOf: Preimage -> string, steps: seq<Step>, req: nat, phase: Phase) {
    match phase
    case Rejected => true
    case Checked(hash) => exists i :: CheckedAt(hashOf, steps, i, req, hash)
    case _ => exists i, m :: AdmittedAt(hashOf, steps, i, m, req, phase.hash)
  }

  ghost predicate Traced(hashOf: Preimage -> string, steps: seq<Step>, s: Server) {
    && (forall h :: h in s.tables.quotes ==> exists j :: QuotedAt(hashOf, steps, j, h, s.tables.quotes[h].expiry))
    && (forall req :: req in s.phases ==> Passed(hashOf, steps, req, s.phases[req]))
  }

  lemma CheckedStays(hashOf: Preimage -> string, steps: seq<Step>, step: Step, i: int, req: nat, hash: string)
    requires CheckedAt(hashOf, steps, i, req, hash)
    ensures CheckedAt(hashOf, steps + [step], i, req, hash)
  {
    var j, expiry :| j < i && QuotedAt(hashOf, steps, j, hash, expiry) && steps[i].now < expiry;
    assert QuotedAt(hashOf, steps + [step], j, hash, expiry);
  }

  lemma PassedStays(hashOf: Preimage -> string, steps: seq<Step>, step: Step, req: nat, phase: Phase)
    requires Passed(hashOf, steps, req, phase)
    ensures Passed(hashOf, steps + [step], req, phase)
  {
    match phase
    case Rejected =>
    case Checked(hash) =>
      var i :| CheckedAt(hashOf, steps, i, req, hash);
      CheckedStays(hashOf, steps, step, i, req, hash);
    case _ =>
      var i, m :| AdmittedAt(hashOf, steps, i, m, req, phase.hash);
      CheckedStays(hashOf, steps, step, i, req, phase.hash);
      assert AdmittedAt(hashOf, steps + [step], i, m, req, phase.hash);
  }

  lemma ExpiryMoves(hashOf: Preimage -> string, s: Server, step: Step, h: string)
    requires h in Next(hashOf, s, step).tables.quotes
    ensures var q' := Next(hashOf, s, step).tables.quotes[h];
            || (h in s.tables.quotes && q'.expiry == s.tables.quotes[h].expiry)
            || (step.QuoteStep? && step.amount > 0 && q'.expiry == step.now + 900_000
                && h == hashOf(PreimageOf(QuoteRow(step.amount, step.faultClass, step.score, step.tx, step.payer, step.now))))
  {
  }

  lemma QuotesStayTraced(hashOf: Preimage -> string, steps: seq<Step>, s: Server, step: Step, h: string)
    requires Traced(hashOf, steps, s) && h in Next(hashOf, s, step).tables.quotes
    ensures exists j :: QuotedAt(hashOf, steps + [step], j, h, Next(hashOf, s, step).tables.quotes[h].expiry)
  {
    var s' := Next(hashOf, s, step);
    ExpiryMoves(hashOf, s, step, h);
    if h in s.tables.quotes && s'.tables.quotes[h].expiry == s.tables.quotes[h].expiry {
      var j :| QuotedAt(hashOf, steps, j, h, s.tables.quotes[h].expiry);
      assert QuotedAt(hashOf, steps + [step], j, h, s'.tables.quotes[h].expiry);
    } else {
      assert QuotedAt(hashOf, steps + [step], |steps|, h, s'.tables.quotes[h].expiry);
    }
  }

  lemma PhaseMoves(hashOf: Preimage -> string, s: Server, step: Step, req: nat)
    requires req in Next(hashOf, s, step).phases
    ensures var phase := Next(hashOf, s, step).phases[req];
            || (req in s.phases && phase == s.phases[req])
            || phase == Rejected
            || (step.Check? && step.req == req && phase == Checked(step.hash)
                && step.hash in s.tables.quotes && step.now < s.tables.quotes[step.hash].expiry)
            || (req in s.phases && s.phases[req].Checked? && phase == Authorized(s.phases[req].hash)
                && step.Authorize? && step.req == req && step.genuine)
            || (req in s.phases && !s.phases[req].Rejected? && !s.phases[req].Checked?
                && !phase.Rejected? && !phase.Checked? && phase.hash == s.phases[req].hash)
  {
  }

  lemma PhasesStayTraced(hashOf: Preimage -> string, steps: seq<Step>, s: Server, step: Step, req: nat)
    requires Traced(hashOf, steps, s) && req in Next(hashOf, s, step).phases
    ensures Passed(hashOf, steps + [step], req, Next(hashOf, s, step).phases[req])
  {
    var phase, after := Next(hashOf, s, step).phases[req], steps + [step];
    PhaseMoves(hashOf, s, step, req);
    if req in s.phases {
      PassedStays(hashOf, steps, step, req, s.phases[req]);
    }
    if step.Check? && phase == Checked(step.hash) && step.req == req && step.hash in s.tables.quotes
       && step.now < s.tables.quotes[step.hash].expiry {
      var j :| QuotedAt(hashOf, steps, j, step.hash, s.tables.quotes[step.hash].expiry);
      assert QuotedAt(hashOf, after, j, step.hash, s.tables.quotes[step.hash].expiry);
      assert CheckedAt(hashOf, after, |steps|, req, step.hash);
    }
    if req in s.phases && s.phases[req].Checked? && phase.Authorized? && step.Authorize? {
      var i :| CheckedAt(hashOf, steps, i, req, s.phases[req].hash);
      CheckedStays(hashOf, steps, step, i, req, s.phases[req].hash);
      assert AdmittedAt(hashOf, after, i, |steps|, req, phase.hash);
    }
  }

  lemma {:induction false} RunIsTraced(hashOf: Preimage -> string, steps: seq<Step>)
    ensures Traced(hashOf, steps, Run(hashOf, START, steps))
  {
    if steps != [] {
      var front, last := steps[..|steps| - 1], steps[|steps| - 1];
      RunIsTraced(hashOf, front);
      var s := Run(hashOf, START, front);
      assert steps == front + [last];
      RunSplits(hashOf, START, front, [last]);
      LastOne(hashOf, s, last);
      forall h | h in Next(hashOf, s, last).tables.quotes
        ensures exists j :: QuotedAt(hashOf, steps, j, h, Next(hashOf, s, last).tables.quotes[h].expiry)
      {
        QuotesStayTraced(hashOf, front, s, last, h);
      }
      forall req | req in Next(hashOf, s, last).phases ensures Passed(hashOf, steps, req, Next(hashOf, s, last).phases[req]) {
        PhasesStayTraced(hashOf, front, s, last, req);
      }
    }
  }

  /** Over every run: whatever request got past authorization, holding its quote, acting or ended with its action on
      chain, was checked less than 900 000 milliseconds after an earlier quoting of that quote, and afterwards
      authorized by a genuine signature. */
  lemma HeldWasCheckedInTime(hashOf: Preimage -> string, steps: seq<Step>, req: nat)
    requires req in Run(hashOf, START, steps).phases
    requires var phase := Run(hashOf, START, steps).phases[req]; !phase.Rejected? && !phase.Checked?
    ensures var hash := Run(hashOf, START, steps).phases[req].hash;
            exists j, i, m :: 0 <= j < i < m < |steps|
              && steps[j].QuoteStep? && steps[i].Check? && steps[m].Authorize?
              && hashOf(PreimageOf(QuoteRow(steps[j].amount, steps[j].faultClass, steps[j].score, steps[j].tx, steps[j].payer, steps[j].now))) == hash
              && steps[i].req == req && steps[i].hash == hash && steps[i].now < steps[j].now + 900_000
              && steps[m].req == req && steps[m].genuine
  {
    RunIsTraced(hashOf, steps);
    var hash := Run(hashOf, START, steps).phases[req].hash;
    var i, m :| AdmittedAt(hashOf, steps, i, m, req, hash);
    var j, expiry :| j < i && QuotedAt(hashOf, steps, j, hash, expiry) && steps[i].now < expiry;
  }
}
