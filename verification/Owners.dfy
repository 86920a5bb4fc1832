// What only the owners can do: list invoices, mint, register verifiers and point contracts at each other. And what
// became of what they did: every invoice keeps the terms it was listed with.
module Owners {
  import opened Common
  import opened Suite
  import opened Journal
  import opened Reachable
  import Pool
  import Vault

  // ---- Invoices -------------------------------------------------------------------------------

  /** `stored` has every term of `terms`, paid or not. */
  ghost predicate HasTerms(stored: Pool.Invoice, terms: Pool.Invoice) {
    && stored.amount == terms.amount
    && stored.vendor == terms.vendor
    && stored.claim == terms.claim
    && stored.purchaseOrder == terms.purchaseOrder
    && stored.deadline == terms.deadline
    && stored.buyerKey == terms.buyerKey
  }

  /** Listing succeeds exactly for the owner under a fresh id, and stores just what was submitted, unpaid. */
  lemma SubmitExactly(p: Pool.Store, caller: Address, id: nat, terms: Pool.Invoice)
    ensures Pool.SubmitInvoice(p, caller, id, terms).Ok? <==> caller == p.owner && id !in p.invoices
    ensures Pool.SubmitInvoice(p, caller, id, terms).Ok? ==>
              var p' := Pool.SubmitInvoice(p, caller, id, terms).value;
              && p'.invoices.Keys == p.invoices.Keys + {id}
              && HasTerms(p'.invoices[id], terms) && !p'.invoices[id].paid
              && (forall i :: i in p.invoices ==> p'.invoices[i] == p.invoices[i])
              && p' == p.(invoices := p'.invoices)
    ensures Pool.SubmitInvoice(p, caller, id, terms) == Err(NotOwner) <==> caller != p.owner
  {
  }

  /** Entry `k` listed invoice `id`, and it is still stored with the terms of that entry. */
  ghost predicate ListedAt(journal: seq<Entry>, k: int, id: nat, stored: Pool.Invoice, owner: Address) {
    && 0 <= k < |journal|
    && journal[k].event.Listed? && journal[k].event.id == id
    && journal[k].caller == owner
    && HasTerms(stored, journal[k].event.terms)
  }

  ghost predicate FromStart(start: World, id: nat, stored: Pool.Invoice) {
    id in start.pool.invoices && HasTerms(stored, start.pool.invoices[id])
  }

  ghost predicate SameOwners(w: World, w': World) {
    && w'.token.owner == w.token.owner && w'.pool.owner == w.pool.owner
    && w'.vault.owner == w.vault.owner && w'.ctrl.owner == w.ctrl.owner
  }

  /** Every invoice was there from the start or listed by the pool's owner, with the terms it has; every listing is of
      an invoice with those terms; and the token's owner made all the money that was ever made. */
  ghost predicate Owned(start: World, h: History) {
    && SameOwners(start, h.world)
    && (forall id :: id in h.world.pool.invoices ==>
          || FromStart(start, id, h.world.pool.invoices[id])
          || exists k :: ListedAt(h.journal, k, id, h.world.pool.invoices[id], start.pool.owner))
    && (forall k :: 0 <= k < |h.journal| && h.journal[k].event.Listed? ==>
          var id := h.journal[k].event.id;
          id in h.world.pool.invoices && ListedAt(h.journal, k, id, h.world.pool.invoices[id], start.pool.owner))
    && (forall k :: 0 <= k < |h.journal| && h.journal[k].event.Minted? ==> h.journal[k].caller == start.token.owner)
  }

  /** What a transaction may do to the invoices: list one, or mark some paid. */
  ghost predicate ListsOnly(w: World, w': World, tx: Tx) {
    && (forall i :: i in w.pool.invoices ==> i in w'.pool.invoices && HasTerms(w'.pool.invoices[i], w.pool.invoices[i]))
    && (forall i :: i in w'.pool.invoices && i !in w.pool.invoices ==>
          tx.call.SubmitInvoice? && i == tx.call.invoiceId && HasTerms(w'.pool.invoices[i], tx.call.terms))
  }

  lemma ResolveKeepsOwners(net: Net, w: World, tx: Tx)
    requires tx.call.ResolveAction? && Apply(net, w, tx).Ok?
    ensures SameOwners(w, Apply(net, w, tx).value) && Apply(net, w, tx).value.pool.invoices == w.pool.invoices
  {
  }

  lemma VaultKeepsOwners(net: Net, w: World, caller: Address, call: GuardedCall)
    requires call.VaultSetController? || call.VaultDeposit? || call.VaultRelease? || call.VaultSlash?
    requires CallGuarded(net, w, caller, call).Ok?
    ensures SameOwners(w, CallGuarded(net, w, caller, call).value) && CallGuarded(net, w, caller, call).value.pool == w.pool
  {
  }

  lemma GuardedKeepsOwners(net: Net, w: World, tx: Tx)
    requires tx.call.Guarded? && Apply(net, w, tx).Ok?
    ensures SameOwners(w, Apply(net, w, tx).value) && ListsOnly(w, Apply(net, w, tx).value, tx)
  {
    match tx.call.guarded
    case PoolSetController(_) =>
    case PoolPayout(_, _, _, _) =>
    case PoolAddToReserve(_) =>
    case _ => VaultKeepsOwners(net, w, tx.caller, tx.call.guarded);
  }

  lemma LifecycleKeepsOwners(net: Net, w: World, tx: Tx)
    requires tx.call.PostBond? || tx.call.ExecuteAction? || tx.call.ChallengeAction?
    requires Apply(net, w, tx).Ok?
    ensures SameOwners(w, Apply(net, w, tx).value) && ListsOnly(w, Apply(net, w, tx).value, tx)
  {
  }

  lemma CallKeepsOwners(net: Net, w: World, tx: Tx)
    requires Apply(net, w, tx).Ok?
    ensures SameOwners(w, Apply(net, w, tx).value) && ListsOnly(w, Apply(net, w, tx).value, tx)
  {
    match tx.call
    case Guarded(_) => GuardedKeepsOwners(net, w, tx);
    case PostBond(_) => LifecycleKeepsOwners(net, w, tx);
    case ExecuteAction(_) => LifecycleKeepsOwners(net, w, tx);
    case ChallengeAction(_, _, _) => LifecycleKeepsOwners(net, w, tx);
    case ResolveAction(_) => ResolveKeepsOwners(net, w, tx);
    case _ =>
  }

  lemma EventsAreOwned(net: Net, w: World, tx: Tx)
    requires Apply(net, w, tx).Ok?
    ensures EventOf(net, w, tx).Minted? ==> tx.caller == w.token.owner
    ensures EventOf(net, w, tx).Listed? <==> tx.call.SubmitInvoice?
    ensures tx.call.SubmitInvoice? ==>
              && EventOf(net, w, tx) == Listed(tx.call.invoiceId, tx.call.terms) && tx.caller == w.pool.owner
              && tx.call.invoiceId !in w.pool.invoices && tx.call.invoiceId in Apply(net, w, tx).value.pool.invoices
  {
  }

  lemma InvoicesStayOwned(start: World, h: History, w': World, e: Entry, tx: Tx)
    requires Owned(start, h) && ListsOnly(h.world, w', tx)
    requires tx.call.SubmitInvoice? ==> e.event == Listed(tx.call.invoiceId, tx.call.terms) && e.caller == start.pool.owner
    ensures forall id :: id in w'.pool.invoices ==>
              || FromStart(start, id, w'.pool.invoices[id])
              || exists k :: ListedAt(h.journal + [e], k, id, w'.pool.invoices[id], start.pool.owner)
  {
    var after := h.journal + [e];
    forall id | id in w'.pool.invoices && !FromStart(start, id, w'.pool.invoices[id])
      ensures exists k :: ListedAt(after, k, id, w'.pool.invoices[id], start.pool.owner)
    {
      if id in h.world.pool.invoices {
        var k :| ListedAt(h.journal, k, id, h.world.pool.invoices[id], start.pool.owner);
        assert ListedAt(after, k, id, w'.pool.invoices[id], start.pool.owner);
      } else {
        assert ListedAt(after, |h.journal|, id, w'.pool.invoices[id], start.pool.owner);
      }
    }
  }

  lemma StepKeepsOwned(net: Net, start: World, h: History, tx: Tx)
    requires Owned(start, h)
    ensures Owned(start, Journal.Record(net, h, tx))
  {
    if Apply(net, h.world, tx).Ok? {
      var w', e := Apply(net, h.world, tx).value, Entry(tx.caller, tx.now, EventOf(net, h.world, tx));
      CallKeepsOwners(net, h.world, tx);
      EventsAreOwned(net, h.world, tx);
      InvoicesStayOwned(start, h, w', e, tx);
      var h' := Journal.Record(net, h, tx);
      assert h'.journal == h.journal + [e] && h'.world.pool == w'.pool;
      forall k | 0 <= k < |h'.journal| && h'.journal[k].event.Listed?
        ensures var id := h'.journal[k].event.id;
                id in w'.pool.invoices && ListedAt(h'.journal, k, id, w'.pool.invoices[id], start.pool.owner)
      {
        var id := h'.journal[k].event.id;
        if k < |h.journal| {
          assert h'.journal[k] == h.journal[k] && ListedAt(h.journal, k, id, h.world.pool.invoices[id], start.pool.owner);
        }
      }
    }
  }

  lemma {:induction false} RunKeepsOwned(net: Net, start: World, h: History, txs: seq<Tx>)
    requires Owned(start, h)
    ensures Owned(start, Run(net, h, txs))
    decreases txs
  {
    if txs != [] {
      StepKeepsOwned(net, start, h, txs[0]);
      RunKeepsOwned(net, start, Journal.Record(net, h, txs[0]), txs[1..]);
    }
  }

  lemma ReachedIsOwned(net: Net, start: World, h: History)
    requires Reaches(net, start, h)
    ensures Owned(start, h)
  {
    var txs :| RunsTo(net, start, txs, h);
    RunKeepsOwned(net, start, History(start, []), txs);
  }

  /** In every reachable state each invoice has, field by field, the terms of the one entry that listed it, sent by the
      pool's owner, or those it had at the start. */
  lemma InvoicesAreAsListed(net: Net, start: World, h: History, id: nat)
    requires Reaches(net, start, h) && id in h.world.pool.invoices
    ensures var i := h.world.pool.invoices[id];
            || FromStart(start, id, i)
            || exists k :: 0 <= k < |h.journal| && h.journal[k].caller == start.pool.owner
                           && h.journal[k].event.Listed? && h.journal[k].event.id == id && HasTerms(i, h.journal[k].event.terms)
    ensures forall k :: 0 <= k < |h.journal| && h.journal[k].event.Listed? && h.journal[k].event.id == id ==>
              HasTerms(h.world.pool.invoices[id], h.journal[k].event.terms)
  {
    ReachedIsOwned(net, start, h);
    var i := h.world.pool.invoices[id];
    if !FromStart(start, id, i) {
      var k :| ListedAt(h.journal, k, id, i, start.pool.owner);
    }
  }

  /** Every unit ever minted was minted by the token's owner. */
  lemma OnlyTheOwnerMints(net: Net, start: World, h: History, k: nat)
    requires Reaches(net, start, h) && k < |h.journal| && h.journal[k].event.Minted?
    ensures h.journal[k].caller == start.token.owner == h.world.token.owner
  {
    ReachedIsOwned(net, start, h);
  }

  // ---- Verifiers and wiring -------------------------------------------------------------------

  /** Only the controller's owner changes a verifier, and only that of the class it names. */
  lemma OnlyTheOwnerRegisters(net: Net, w: World, tx: Tx)
    ensures tx.call.RegisterVerifier? ==> (Apply(net, w, tx).Ok? <==> tx.caller == w.ctrl.owner)
    ensures tx.call.RegisterVerifier? && tx.caller != w.ctrl.owner ==> Apply(net, w, tx) == Err(NotOwner)
    ensures Next(net, w, tx).ctrl.verifiers ==
              if tx.call.RegisterVerifier? && tx.caller == w.ctrl.owner
              then w.ctrl.verifiers[tx.call.faultClass := tx.call.verifier] else w.ctrl.verifiers
  {
    if Apply(net, w, tx).Ok? {
      match tx.call
      case Token(_) =>
      case Guarded(_) =>
      case SubmitInvoice(_, _) =>
      case VerifyDelivery(_, _, _, _, _) =>
      case SetPool(_) =>
      case RegisterVerifier(_, _) =>
      case InitiateAction(_, _, _, _) =>
      case PostBond(_) =>
      case ExecuteAction(_) =>
      case ChallengeAction(_, _, _) =>
      case ResolveAction(_) =>
    }
  }

  /** Pointing the vault, the pool or the controller succeeds exactly once, for the owner, and fixes what it sets. */
  lemma PointingExactly(v: Vault.Store, p: Pool.Store, c: Controller, caller: Address, target: Address)
    ensures Vault.SetController(v, caller, target).Ok? <==> caller == v.owner && !v.controllerFinalized
    ensures Vault.SetController(v, caller, target).Ok? ==>
              var v' := Vault.SetController(v, caller, target).value;
              && v'.controller == target && v'.controllerFinalized && v'.owner == v.owner
              && v'.bonds == v.bonds && v'.totalLocked == v.totalLocked
    ensures Pool.SetController(p, caller, target).Ok? <==> caller == p.owner && !p.controllerFinalized
    ensures Pool.SetController(p, caller, target).Ok? ==>
              var p' := Pool.SetController(p, caller, target).value;
              && p'.controller == target && p'.controllerFinalized && p'.owner == p.owner
              && p'.invoices == p.invoices && p'.reserve == p.reserve
              && p'.paidClaims == p.paidClaims && p'.actionDup == p.actionDup
    ensures PointPool(c, caller, target).Ok? <==> caller == c.owner && !c.poolFinalized
    ensures caller != v.owner ==> Vault.SetController(v, caller, target) == Err(NotOwner)
    ensures caller != p.owner ==> Pool.SetController(p, caller, target) == Err(NotOwner)
    ensures caller != c.owner ==> PointPool(c, caller, target) == Err(NotOwner)
    ensures caller == v.owner && v.controllerFinalized ==> Vault.SetController(v, caller, target) == Err(ControllerFinalized)
    ensures caller == p.owner && p.controllerFinalized ==> Pool.SetController(p, caller, target) == Err(ControllerFinalized)
    ensures caller == c.owner && c.poolFinalized ==> PointPool(c, caller, target) == Err(PoolFinalized)
    ensures PointPool(c, caller, target).Ok? ==>
              PointPool(c, caller, target).value.pool == target && PointPool(c, caller, target).value.poolFinalized
              && PointPool(c, caller, target).value.(pool := c.pool, poolFinalized := c.poolFinalized) == c
  {
  }
}
