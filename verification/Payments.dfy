// Payouts: the bijection between settled actions and paid invoices, and the duplicate index as a
// faithful summary of the order in which payouts happened.
module Payments {
  import opened Common
  import opened Suite
  import opened Journal
  import opened Wiring
  import opened Custody
  import Pool

  // ---- The order of payouts -------------------------------------------------------------------

  datatype Payout = Payout(id: nat, invoiceId: nat, claim: Bytes, amount: nat)

  /** The payouts of a journal, in order. */
  function PayoutsOf(journal: seq<Entry>): seq<Payout> {
    if journal == [] then []
    else
      var e := journal[|journal| - 1].event;
      var earlier := PayoutsOf(journal[..|journal| - 1]);
      if e.Paid? then earlier + [Payout(e.id, e.invoiceId, e.claim, e.amount)] else earlier
  }

  lemma PayoutsSnoc(journal: seq<Entry>, e: Entry)
    ensures PayoutsOf(journal + [e])
         == if e.event.Paid? then PayoutsOf(journal) + [Payout(e.event.id, e.event.invoiceId, e.event.claim, e.event.amount)]
            else PayoutsOf(journal)
  {
    assert (journal + [e])[..|journal|] == journal;
  }

  ghost predicate ClaimsAt(payouts: seq<Payout>, i: int, claim: Bytes) {
    0 <= i < |payouts| && payouts[i].claim == claim
  }

  /** Payout `i` is the earliest one for `claim`. */
  ghost predicate FirstAt(payouts: seq<Payout>, i: int, claim: Bytes) {
    ClaimsAt(payouts, i, claim) && forall j :: j < i ==> !ClaimsAt(payouts, j, claim)
  }

  /** Payout `j` is by action `id`, and the strictly earlier payout `i` had the same claim. */
  ghost predicate RepeatsAt(payouts: seq<Payout>, i: int, j: int, id: nat) {
    0 <= i < j < |payouts| && payouts[j].id == id && ClaimsAt(payouts, i, payouts[j].claim)
  }

  ghost predicate Claimed(payouts: seq<Payout>, claim: Bytes) {
    exists i :: ClaimsAt(payouts, i, claim)
  }

  ghost predicate FirstPayer(payouts: seq<Payout>, claim: Bytes, id: nat) {
    exists i :: FirstAt(payouts, i, claim) && payouts[i].id == id
  }

  ghost predicate Repeats(payouts: seq<Payout>, id: nat) {
    exists i, j :: RepeatsAt(payouts, i, j, id)
  }

  /** `paid_claims` and `action_dup` are exactly what the payout order says they are. */
  ghost predicate Indexed(p: Pool.Store, payouts: seq<Payout>) {
    && (forall c :: c in p.paidClaims <==> Claimed(payouts, c))
    && (forall c :: c in p.paidClaims ==> FirstPayer(payouts, c, p.paidClaims[c]))
    && (forall a :: a in p.actionDup <==> Repeats(payouts, a))
  }

  lemma PayoutKeepsIndexed(p: Pool.Store, p': Pool.Store, payouts: seq<Payout>, x: Payout)
    requires Indexed(p, payouts)
    requires if x.claim in p.paidClaims
             then p'.paidClaims == p.paidClaims && p'.actionDup == p.actionDup + {x.id}
             else p'.paidClaims == p.paidClaims[x.claim := x.id] && p'.actionDup == p.actionDup
    ensures Indexed(p', payouts + [x])
  {
    var after := payouts + [x];
    var n := |payouts|;
    assert forall i, c :: ClaimsAt(payouts, i, c) ==> ClaimsAt(after, i, c);
    assert forall i, c :: ClaimsAt(after, i, c) ==> ClaimsAt(payouts, i, c) || (i == n && c == x.claim);
    assert ClaimsAt(after, n, x.claim) && Claimed(after, x.claim);
    forall c ensures c in p'.paidClaims <==> Claimed(after, c) {
      if Claimed(payouts, c) {
        var i :| ClaimsAt(payouts, i, c);
        assert ClaimsAt(after, i, c);
      }
    }
    forall c | c in p'.paidClaims ensures FirstPayer(after, c, p'.paidClaims[c]) {
      if c in p.paidClaims {
        var i :| FirstAt(payouts, i, c) && payouts[i].id == p.paidClaims[c];
        assert FirstAt(after, i, c);
      } else {
        assert FirstAt(after, n, c);
      }
    }
    forall a ensures a in p'.actionDup <==> Repeats(after, a) {
      if Repeats(payouts, a) {
        var i, j :| RepeatsAt(payouts, i, j, a);
        assert RepeatsAt(after, i, j, a);
      }
      if x.claim in p.paidClaims && a == x.id {
        assert Claimed(payouts, x.claim);
        var i :| ClaimsAt(payouts, i, x.claim);
        assert RepeatsAt(after, i, n, a);
      }
      if Repeats(after, a) {
        var i, j :| RepeatsAt(after, i, j, a);
        assert j < n ==> RepeatsAt(payouts, i, j, a);
        assert j == n ==> ClaimsAt(payouts, i, x.claim);
      }
    }
  }

  // ---- Actions, invoices and payouts ----------------------------------------------------------

  predicate IsSettled(c: Controller, id: nat) {
    id in c.actions && Settled(c.actions[id].status)
  }

  ghost predicate PaidBy(c: Controller, id: nat, invoiceId: nat) {
    IsSettled(c, id) && c.actions[id].invoiceId == invoiceId
  }

  /** A settled action's invoice is paid and says what the action says. */
  ghost predicate Covered(w: World, id: nat)
    requires IsSettled(w.ctrl, id)
  {
    var a := w.ctrl.actions[id];
    && a.invoiceId in w.pool.invoices
    && (var i := w.pool.invoices[a.invoiceId]; i.paid && i.amount == a.amount && i.claim == a.claim)
  }

  /** Settled actions and paid invoices are in bijection. */
  ghost predicate Matched(w: World) {
    && (forall id :: IsSettled(w.ctrl, id) ==> Covered(w, id))
    && (forall id, id', i :: PaidBy(w.ctrl, id, i) && PaidBy(w.ctrl, id', i) ==> id == id')
    && (forall i :: i in w.pool.invoices && w.pool.invoices[i].paid ==> exists id :: PaidBy(w.ctrl, id, i))
  }

  ghost predicate PaysAt(payouts: seq<Payout>, i: int, id: nat) {
    0 <= i < |payouts| && payouts[i].id == id
  }

  function PayoutOf(id: nat, a: Action): Payout {
    Payout(id, a.invoiceId, a.claim, a.amount)
  }

  /** The payouts on record are those of the settled actions, once each. */
  ghost predicate Recorded(c: Controller, payouts: seq<Payout>) {
    && (forall i, id :: PaysAt(payouts, i, id) ==> IsSettled(c, id) && payouts[i] == PayoutOf(id, c.actions[id]))
    && (forall i, j, id :: PaysAt(payouts, i, id) && PaysAt(payouts, j, id) ==> i == j)
    && (forall id :: IsSettled(c, id) ==> exists i :: PaysAt(payouts, i, id))
  }

  /** Actions keep their terms, and `id` is the only one that may have become settled. */
  ghost predicate Settles(c: Controller, c': Controller, settled: set<nat>) {
    && (forall id :: id in c.actions ==> id in c'.actions && SameTerms(c.actions[id], c'.actions[id]))
    && (forall id :: IsSettled(c', id) <==> IsSettled(c, id) || id in settled)
  }

  lemma StepSettles(c: Controller, c': Controller, e: Event)
    requires Numbered(c) && Turns(c, c', e)
    ensures Settles(c, c', if e.Paid? then {e.id} else {})
  {
    assert e.Opened? ==> e.id !in c.actions;
  }

  /** A step that pays nothing leaves the paid invoices as they were. */
  lemma StepPaysNothing(net: Net, w: World, w': World, e: Entry)
    requires Explains(net, w, w', e) && !e.event.Paid?
    ensures MoreInvoices(w.pool.(reserve := 0), w'.pool.(reserve := 0))
  {
  }

  lemma IdleKeepsMatched(w: World, w': World)
    requires Matched(w) && Settles(w.ctrl, w'.ctrl, {}) && MoreInvoices(w.pool.(reserve := 0), w'.pool.(reserve := 0))
    ensures Matched(w')
  {
    assert forall id, i :: PaidBy(w'.ctrl, id, i) <==> PaidBy(w.ctrl, id, i);
    assert forall id :: IsSettled(w'.ctrl, id) ==> IsSettled(w.ctrl, id) && Covered(w, id);
  }

  lemma PayoutKeepsMatched(net: Net, w: World, w': World, now: nat, id: nat, invoiceId: nat, vendor: Address, claim: Bytes, amount: nat)
    requires Matched(w) && Settles(w.ctrl, w'.ctrl, {id}) && Pays(net, w, w', now, id, invoiceId, vendor, claim, amount)
    ensures Matched(w')
  {
    assert forall j, i :: PaidBy(w'.ctrl, j, i) <==> PaidBy(w.ctrl, j, i) || (j == id && i == invoiceId);
    forall j | IsSettled(w'.ctrl, j) ensures Covered(w', j) {
      if j != id {
        assert Covered(w, j);
      }
    }
    assert forall j :: PaidBy(w.ctrl, j, invoiceId) ==> Covered(w, j);
    assert PaidBy(w'.ctrl, id, invoiceId);
  }

  lemma PayoutKeepsRecorded(c: Controller, c': Controller, payouts: seq<Payout>, id: nat)
    requires Recorded(c, payouts) && Settles(c, c', {id}) && id in c.actions && !IsSettled(c, id)
    ensures Recorded(c', payouts + [PayoutOf(id, c.actions[id])])
  {
    var after := payouts + [PayoutOf(id, c.actions[id])];
    assert forall i, j :: PaysAt(after, i, j) <==> PaysAt(payouts, i, j) || (i == |payouts| && j == id);
    assert PaysAt(after, |payouts|, id);
    forall j | IsSettled(c', j) ensures exists i :: PaysAt(after, i, j) {
      if j != id {
        var i :| PaysAt(payouts, i, j);
        assert PaysAt(after, i, j);
      }
    }
  }

  /** The three stories of what was paid. */
  ghost predicate Paying(h: History) {
    && Indexed(h.world.pool, PayoutsOf(h.journal))
    && Matched(h.world)
    && Recorded(h.world.ctrl, PayoutsOf(h.journal))
  }

  lemma PayoutKeepsPaying(net: Net, h: History, w': World, e: Entry)
    requires Numbered(h.world.ctrl) && Explains(net, h.world, w', e) && e.event.Paid? && Paying(h)
    ensures Paying(History(w', h.journal + [e]))
  {
    var w := h.world;
    var Paid(id, invoiceId, vendor, claim, amount) := e.event;
    PayoutsSnoc(h.journal, e);
    StepTurns(net, w, w', e);
    StepSettles(w.ctrl, w'.ctrl, e.event);
    PayoutKeepsIndexed(w.pool, w'.pool, PayoutsOf(h.journal), Payout(id, invoiceId, claim, amount));
    PayoutKeepsMatched(net, w, w', e.time, id, invoiceId, vendor, claim, amount);
    PayoutKeepsRecorded(w.ctrl, w'.ctrl, PayoutsOf(h.journal), id);
  }

  lemma IdleKeepsPaying(h: History, w': World, e: Entry)
    requires Settles(h.world.ctrl, w'.ctrl, {}) && MoreInvoices(h.world.pool.(reserve := 0), w'.pool.(reserve := 0))
    requires !e.event.Paid? && Paying(h)
    ensures Paying(History(w', h.journal + [e]))
  {
    PayoutsSnoc(h.journal, e);
    IdleKeepsMatched(h.world, w');
  }

  lemma StepKeepsPaying(net: Net, h: History, w': World, e: Entry)
    requires Numbered(h.world.ctrl) && Explains(net, h.world, w', e) && Paying(h)
    ensures Paying(History(w', h.journal + [e]))
  {
    if e.event.Paid? {
      PayoutKeepsPaying(net, h, w', e);
    } else {
      StepTurns(net, h.world, w', e);
      StepSettles(h.world.ctrl, w'.ctrl, e.event);
      StepPaysNothing(net, h.world, w', e);
      IdleKeepsPaying(h, w', e);
    }
  }
}
