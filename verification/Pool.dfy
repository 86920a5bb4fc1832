// InvoicePoolV2: invoices, vendor payouts, the first-payer index and the reserve counter.
module Pool {
  import opened Common
  import Ledger

  datatype Invoice = Invoice(
    amount: nat,
    vendor: Address,
    claim: Bytes,
    purchaseOrder: Bytes,
    deadline: nat,
    buyerKey: Bytes,
    paid: bool)

  datatype Store = Store(
    owner: Address,
    controller: Address,
    controllerFinalized: bool,
    invoices: map<nat, Invoice>,
    paidClaims: map<Bytes, nat>,
    actionDup: set<nat>,
    reserve: nat)

  function SetController(p: Store, caller: Address, controller: Address): Result<Store> {
    if caller != p.owner then Err(NotOwner)
    else if p.controllerFinalized then Err(ControllerFinalized)
    else Ok(p.(controller := controller, controllerFinalized := true))
  }

  function GetInvoice(p: Store, id: nat): Option<Invoice> {
    if id in p.invoices then Some(p.invoices[id]) else None
  }

  /** `terms.paid` is ignored: a submitted invoice always starts unpaid. */
  function SubmitInvoice(p: Store, caller: Address, id: nat, terms: Invoice): Result<Store> {
    if caller != p.owner then Err(NotOwner)
    else if id in p.invoices then Err(InvoiceAlreadyExists)
    else Ok(p.(invoices := p.invoices[id := terms.(paid := false)]))
  }

  function Payout(self: Address, p: Store, t: Ledger.Store, caller: Address,
                  invoiceId: nat, actionId: nat, claim: Bytes, amount: nat): Result<(Store, Ledger.Store)>
  {
    if caller != p.controller then Err(NotController)
    else if invoiceId !in p.invoices then Err(InvoiceNotFound)
    else
      var invoice := p.invoices[invoiceId];
      if invoice.paid then Err(InvoiceAlreadyPaid)
      else if invoice.amount != amount || invoice.claim != claim then Err(InvoiceMismatch)
      else
        var t' :- Ledger.Transfer(t, self, invoice.vendor, amount);
        var p1 :=
          if claim in p.paidClaims then p.(actionDup := p.actionDup + {actionId})
          else p.(paidClaims := p.paidClaims[claim := actionId]);
        Ok((p1.(invoices := p1.invoices[invoiceId := invoice.(paid := true)]), t'))
  }

  function AddToReserve(p: Store, caller: Address, amount: nat): Result<Store> {
    if caller != p.controller then Err(NotController)
    else Ok(p.(reserve := p.reserve + amount))
  }

  /** What the pool refuses, and with which reason, before any money moves. */
  lemma Refusals(self: Address, p: Store, t: Ledger.Store, caller: Address, id: nat, terms: Invoice,
                 actionId: nat, claim: Bytes, amount: nat)
    ensures caller != p.owner ==> SubmitInvoice(p, caller, id, terms) == Err(NotOwner)
    ensures caller == p.owner && id in p.invoices ==> SubmitInvoice(p, caller, id, terms) == Err(InvoiceAlreadyExists)
    ensures caller != p.controller ==>
              && Payout(self, p, t, caller, id, actionId, claim, amount) == Err(NotController)
              && AddToReserve(p, caller, amount) == Err(NotController)
    ensures caller == p.controller && id !in p.invoices ==>
              Payout(self, p, t, caller, id, actionId, claim, amount) == Err(InvoiceNotFound)
    ensures caller == p.controller && id in p.invoices && p.invoices[id].paid ==>
              Payout(self, p, t, caller, id, actionId, claim, amount) == Err(InvoiceAlreadyPaid)
    ensures caller == p.controller && id in p.invoices && !p.invoices[id].paid
            && (p.invoices[id].amount != amount || p.invoices[id].claim != claim) ==>
              Payout(self, p, t, caller, id, actionId, claim, amount) == Err(InvoiceMismatch)
  {
  }
}
