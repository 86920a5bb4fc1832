// Duplicates, verdicts, evidence and reputation in every reachable state; and which bonded actions are stuck.
module Outcomes {
  import opened Common
  import opened Suite
  import opened Journal
  import opened Wiring
  import opened Custody
  import opened Payments
  import opened Justice
  import opened Reachable
  import opened Theorems
  import opened Pricing
  import Ledger
  import Pool
  import Delivery

  // ---- Payouts and duplicates -----------------------------------------------------------------

  /** Settled actions and paid invoices are in bijection, each pair agreeing on amount and claim. */
  lemma PayoutsMatchInvoices(net: Net, start: World, h: History)
    requires Reaches(net, start, h)
    ensures Matched(h.world)
  {
    ReachedIsGood(net, start, h);
  }

  /** `paid_claims[c]` is the first action in payout order with claim `c`, and `action_dup` flags exactly the
      actions that paid a claim a strictly earlier payout had used. */
  lemma DuplicateIndexIsPayoutOrder(net: Net, start: World, h: History)
    requires Reaches(net, start, h)
    ensures Recorded(h.world.ctrl, PayoutsOf(h.journal))
    ensures var p, payouts := h.world.pool, PayoutsOf(h.journal);
            && (forall c :: c in p.paidClaims <==> Claimed(payouts, c))
            && (forall c :: c in p.paidClaims ==> FirstPayer(payouts, c, p.paidClaims[c]))
            && (forall id :: id in p.actionDup <==> Repeats(payouts, id))
  {
    assert Paying(h) by { ReachedIsGood(net, start, h); }
  }

  lemma OnePayer(c: Controller, p: Pool.Store, payouts: seq<Payout>, id: nat)
    requires Indexed(p, payouts) && Recorded(c, payouts) && IsSettled(c, id)
    ensures c.actions[id].claim in p.paidClaims
    ensures id !in p.actionDup <==> id == p.paidClaims[c.actions[id].claim]
  {
    var claim := c.actions[id].claim;
    var k :| PaysAt(payouts, k, id);
    assert ClaimsAt(payouts, k, claim);
    var first :| FirstAt(payouts, first, claim) && payouts[first].id == p.paidClaims[claim];
    assert PaysAt(payouts, first, p.paidClaims[claim]);
    if first == k {
      assert !Repeats(payouts, id) by {
        assert forall j :: 0 <= j < |payouts| && payouts[j].id == id ==> PaysAt(payouts, j, id);
      }
    } else {
      assert RepeatsAt(payouts, first, k, id);
    }
  }

  /** Of all the settled actions with one claim, exactly one is no duplicate: the recorded first payer. */
  lemma OneHonestPayerPerClaim(net: Net, start: World, h: History, id: nat)
    requires Reaches(net, start, h) && IsSettled(h.world.ctrl, id)
    ensures var c, p := h.world.ctrl, h.world.pool;
            && c.actions[id].claim in p.paidClaims
            && (id !in p.actionDup <==> id == p.paidClaims[c.actions[id].claim])
  {
    assert Paying(h) by { ReachedIsGood(net, start, h); }
    OnePayer(h.world.ctrl, h.world.pool, PayoutsOf(h.journal), id);
  }

  // ---- Verdicts -------------------------------------------------------------------------------

  /** What it takes for evidence to have been accepted against an action and its invoice. */
  ghost predicate EvidenceAgainst(net: Net, w: World, id: nat, time: nat)
    requires id in w.ctrl.actions
  {
    var a := w.ctrl.actions[id];
    && |a.evidence| == 120
    && Delivery.FromLE(a.evidence[0..8]) == id
    && Delivery.FromLE(a.evidence[8..16]) == a.invoiceId
    && a.invoiceId in w.pool.invoices
    && (var i := w.pool.invoices[a.invoiceId];
        && |i.buyerKey| == 32 && net.ed.parsesKey(i.buyerKey) && net.ed.parsesSignature(a.evidence[56..120])
        && i.deadline <= Delivery.FromLE(a.evidence[16..24]) <= time
        && net.ed.accepts(i.buyerKey, a.evidence[0..56], a.evidence[56..120]))
  }

  /** Nobody is slashed without cause: a challenged or slashed action was challenged inside its window, either as a
      later payer of a claim someone else paid first, or by signed evidence naming it and its invoice. */
  lemma SlashesAreJustified(net: Net, start: World, h: History, id: nat)
    requires Reaches(net, start, h) && id in h.world.ctrl.actions
    requires h.world.ctrl.actions[id].status.ResolvedSlash? || h.world.ctrl.actions[id].status.Challenged?
    ensures var w := h.world;
            var a := w.ctrl.actions[id];
            exists k :: 0 <= k < |h.journal|
              && h.journal[k].event == Contested(id, a.faultClass, a.evidence)
              && a.challenger == Some(h.journal[k].caller)
              && h.journal[k].time <= a.windowEnd
              && ((a.faultClass == "duplicate_claim" && a.claim in w.pool.paidClaims && w.pool.paidClaims[a.claim] != id
                   && Repeats(PayoutsOf(h.journal), id))
                  || (a.faultClass == "delivery_contradiction" && EvidenceAgainst(net, w, id, h.journal[k].time)))
  {
    var w := h.world;
    var a := w.ctrl.actions[id];
    assert Coupled(net, w) && Paying(h) && Judged(net, w, h.journal) by { ReachedIsGood(net, start, h); }
    assert Agree(net, a, id, w.vault.bonds);
    var k :| Upheld(net, w.pool, h.journal, k, id, a);
    if a.faultClass == DUPLICATE {
      OnePayer(w.ctrl, w.pool, PayoutsOf(h.journal), id);
    }
  }

  /** The window of a settled action is the configured number of seconds, counted from the payout of its invoice. */
  lemma WindowsRunFromThePayout(net: Net, start: World, h: History, id: nat)
    requires Reaches(net, start, h) && IsSettled(h.world.ctrl, id)
    ensures exists k :: 0 <= k < |h.journal| && h.journal[k].event.Paid? && h.journal[k].event.id == id
              && h.world.ctrl.actions[id].windowEnd == h.journal[k].time + start.ctrl.windowSecs * 1_000
  {
    assert Windowed(h.world.ctrl, h.journal, start.ctrl.windowSecs) by { ReachedIsGood(net, start, h); }
    var k :| OpenedAt(h.journal, k, id, h.world.ctrl.actions[id].windowEnd, start.ctrl.windowSecs);
  }

  /** A refunded action was refunded, in full and to its agent, by an entry later than its window. */
  lemma RefundsComeAfterTheWindow(net: Net, start: World, h: History, id: nat)
    requires Reaches(net, start, h) && id in h.world.ctrl.actions && h.world.ctrl.actions[id].status.ResolvedRefund?
    ensures exists k :: Released(h.journal, k, id, h.world.ctrl.actions[id])
  {
    assert Judged(net, h.world, h.journal) by { ReachedIsGood(net, start, h); }
  }

  /** An action ends at most once in a whole run, and never both ways. */
  lemma OutcomesAreExclusive(net: Net, start: World, h: History, i: int, j: int, id: nat)
    requires Reaches(net, start, h) && EndsAt(h.journal, i, id) && EndsAt(h.journal, j, id)
    ensures i == j && id in h.world.ctrl.actions
    ensures h.journal[i].event.Slashed? <==> h.world.ctrl.actions[id].status.ResolvedSlash?
    ensures h.journal[i].event.Refunded? <==> h.world.ctrl.actions[id].status.ResolvedRefund?
  {
    assert EndedOnce(h.world.ctrl, h.journal) by { ReachedIsGood(net, start, h); }
  }

  /** Over a whole run, direct calls of the verifier included, no evidence value is accepted twice. */
  lemma EvidenceIsSingleUse(net: Net, start: World, h: History, i: nat, j: nat)
    requires Reaches(net, start, h) && i < j < |Accepted(h.journal)|
    ensures Accepted(h.journal)[i] != Accepted(h.journal)[j]
    ensures Accepted(h.journal)[i] !in start.used && Accepted(h.journal)[i] in h.world.used
  {
    ReachedIsGood(net, start, h);
  }

  // ---- Reputation and progress ----------------------------------------------------------------

  /** An agent's record counts its resolved actions, and its score follows from the counts. */
  lemma ReputationIsTheRecord(net: Net, start: World, h: History, agent: Address)
    requires Reaches(net, start, h)
    ensures Numbered(h.world.ctrl)
    ensures var c := h.world.ctrl;
            var rep := c.RepOf(agent);
            && rep.clean == Tally(CleanOf(agent), c.actions, c.nextId)
            && rep.slashed == Tally(SlashedOf(agent), c.actions, c.nextId)
            && rep.score == 10 * rep.clean - 50 * rep.slashed == Sum(Score(agent), h.journal)
  {
    ReachedIsGood(net, start, h);
    assert RatedAs(h.world.ctrl, h.journal, agent);
  }

  /** Every action still carries the terms it was initiated with, and the bond priced at the score its agent then had. */
  lemma BondsKeepTheirPrice(net: Net, start: World, h: History, id: nat)
    requires Reaches(net, start, h) && id in h.world.ctrl.actions
    ensures var a := h.world.ctrl.actions[id];
            exists k :: 0 <= k < |h.journal| && h.journal[k].event == Opened(id, a.agent, a.invoiceId, a.claim, a.amount, a.reasoning)
              && a.bondRequired == BondRequired(a.amount, Sum(Score(a.agent), h.journal[..k]))
  {
    assert Priced(h.world.ctrl, h.journal) by { ReachedIsGood(net, start, h); }
    var k :| PricedAt(h.journal, k, id, h.world.ctrl.actions[id]);
  }

  /** n actions admit at most 4n successful post, execute, challenge and resolve calls. */
  lemma CallsAreBounded(net: Net, start: World, h: History)
    requires Reaches(net, start, h)
    ensures Numbered(h.world.ctrl)
    ensures Sum(Calls, h.journal) == Tally(CallsMade, h.world.ctrl.actions, h.world.ctrl.nextId) <= 4 * h.world.ctrl.nextId
  {
    ReachedIsGood(net, start, h);
    CallsBounded(h.world.ctrl.actions, h.world.ctrl.nextId);
  }

  // ---- Stuck actions --------------------------------------------------------------------------

  /** A bonded action whose invoice can never be paid for it: already paid, saying something else, or owed to the
      pool itself. */
  ghost predicate Blocked(w: World, id: nat) {
    && id in w.ctrl.actions && w.ctrl.actions[id].status.Bonded?
    && (var a := w.ctrl.actions[id];
        && a.invoiceId in w.pool.invoices
        && (var i := w.pool.invoices[a.invoiceId];
            i.paid || i.amount != a.amount || i.claim != a.claim || i.vendor == w.ctrl.pool))
  }

  lemma StepStaysBlocked(net: Net, w: World, tx: Tx, id: nat)
    requires InOrder(net, w)
    requires Admissible(net, w, tx) && Blocked(w, id)
    ensures Blocked(Next(net, w, tx), id)
  {
    var success, e := StepCases(net, w, tx);
    if success {
      ExplainedKeepsWired(net, w, Next(net, w, tx), e);
      if e.event.Paid? {
        PaidIsNotBlocked(net, w, Next(net, w, tx), e);
      }
    }
  }

  lemma PaidIsNotBlocked(net: Net, w: World, w': World, e: Entry)
    requires Wired(net, w) && Explains(net, w, w', e) && e.event.Paid?
    ensures !Blocked(w, e.event.id)
  {
  }

  /** A blocked action stays bonded for ever: its bond is never refunded and never slashed. */
  lemma {:induction false} BlockedForEver(net: Net, h: History, txs: seq<Tx>, id: nat)
    requires InOrder(net, h.world) && AdmissibleRun(net, h, txs) && Blocked(h.world, id)
    ensures Blocked(Run(net, h, txs).world, id)
    decreases txs
  {
    if txs != [] {
      StepStaysBlocked(net, h.world, txs[0], id);
      StepStaysInOrder(net, h.world, txs[0]);
      BlockedForEver(net, Record(net, h, txs[0]), txs[1..], id);
    }
  }

  ghost predicate IsBonded(w: World, id: nat) {
    id in w.ctrl.actions && w.ctrl.actions[id].status.Bonded?
  }

  /** With its invoice in place and unblocked, a bonded action can be executed once the pool is funded. */
  lemma ReadyCanExecute(net: Net, h: History, id: nat) returns (txs: seq<Tx>)
    requires Wired(net, h.world) && Coupled(net, h.world) && NoAllowances(net, h.world.token)
    requires IsBonded(h.world, id) && !Blocked(h.world, id)
    requires h.world.ctrl.actions[id].invoiceId in h.world.pool.invoices
    requires h.world.token.owner !in net.Contracts()
    ensures AdmissibleRun(net, h, txs) && !IsBonded(Run(net, h, txs).world, id)
  {
    var w := h.world;
    var a := w.ctrl.actions[id];
    assert Agree(net, a, id, w.vault.bonds);
    var fund := Tx(w.token.owner, w.now, Token(Mint(net.pool, a.amount)));
    var execute := Tx(a.agent, w.now, ExecuteAction(id));
    txs := [fund, execute];
    var h1 := Record(net, h, fund);
    assert h1.world == w.(token := Ledger.Mint(w.token, w.token.owner, net.pool, a.amount).value);
    assert Execute(net, h1.world, a.agent, id, w.now).Ok?;
    var h2 := Record(net, h1, execute);
    assert h2.world.ctrl.actions[id].status.Executed?;
    assert txs[1..] == [execute] && [execute][1..] == [];
    assert Run(net, h1, [execute]) == Run(net, h2, []) == h2;
    assert AdmissibleRun(net, h2, []) && AdmissibleRun(net, h1, [execute]);
  }

  lemma UnblockedCanExecute(net: Net, h: History, id: nat) returns (txs: seq<Tx>)
    requires Wired(net, h.world) && Coupled(net, h.world) && NoAllowances(net, h.world.token)
    requires IsBonded(h.world, id) && !Blocked(h.world, id)
    requires h.world.token.owner !in net.Contracts() && h.world.pool.owner !in net.Contracts()
    ensures AdmissibleRun(net, h, txs) && !IsBonded(Run(net, h, txs).world, id)
  {
    var w := h.world;
    var a := w.ctrl.actions[id];
    if a.invoiceId in w.pool.invoices {
      txs := ReadyCanExecute(net, h, id);
    } else {
      assert Agree(net, a, id, w.vault.bonds);
      var invoice := Pool.Invoice(a.amount, a.agent, a.claim, [], 0, [], false);
      var submit := Tx(w.pool.owner, w.now, SubmitInvoice(a.invoiceId, invoice));
      var h1 := Record(net, h, submit);
      assert h1.world == w.(pool := w.pool.(invoices := w.pool.invoices[a.invoiceId := invoice]));
      var rest := ReadyCanExecute(net, h1, id);
      txs := [submit] + rest;
      assert txs[1..] == rest;
    }
  }

  /** A bonded action is stuck for good if and only if it is blocked. */
  lemma StuckExactlyWhenBlocked(net: Net, start: World, h: History, id: nat)
    requires Reaches(net, start, h) && IsBonded(h.world, id)
    requires h.world.token.owner !in net.Contracts() && h.world.pool.owner !in net.Contracts()
    ensures Blocked(h.world, id) <==> forall txs :: AdmissibleRun(net, h, txs) ==> IsBonded(Run(net, h, txs).world, id)
  {
    ReachedIsGood(net, start, h);
    if Blocked(h.world, id) {
      forall txs | AdmissibleRun(net, h, txs) ensures IsBonded(Run(net, h, txs).world, id) {
        BlockedForEver(net, h, txs, id);
      }
    } else {
      var txs := UnblockedCanExecute(net, h, id);
    }
  }
}
