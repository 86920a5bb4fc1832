// The controller's calls in every reachable state: what each writes, and the only reasons each can revert for.
module Calls {
  import opened Common
  import opened Suite
  import opened Journal
  import opened Wiring
  import opened Custody
  import opened Payments
  import opened Justice
  import opened Reachable
  import opened Theorems
  import Delivery
  import Ledger
  import Pool
  import Pricing
  import Vault

  // ---- Initiating and bonding -----------------------------------------------------------------

  /** Anyone's call stores, under the next id, an action with just what it was given, priced at the caller's score. */
  lemma InitiateWrites(net: Net, w: World, tx: Tx)
    requires tx.call.InitiateAction?
    ensures Apply(net, w, tx).Ok?
    ensures var w', id := Next(net, w, tx), w.ctrl.nextId;
            && id in w'.ctrl.actions
            && (var a := w'.ctrl.actions[id];
                && a.agent == tx.caller && a.invoiceId == tx.call.invoiceId && a.claim == tx.call.claim
                && a.amount == tx.call.amount && a.reasoning == tx.call.reasoning
                && a.bondRequired == Pricing.BondRequired(tx.call.amount, w.ctrl.RepOf(tx.caller).score)
                && a.bondPosted == 0 && a.windowEnd == 0 && a.status == Initiated && a.challenger == None
                && a.faultClass == "" && a.evidence == [])
            && w'.ctrl == w.ctrl.(nextId := id + 1, actions := w.ctrl.actions[id := w'.ctrl.actions[id]])
            && w' == w.(ctrl := w'.ctrl, now := tx.now)
  {
  }

  /** Why posting a bond reverts: the first that applies. The vault's own guards never do. */
  lemma PostReverts(net: Net, start: World, h: History, tx: Tx)
    requires Reaches(net, start, h) && Admissible(net, h.world, tx) && tx.call.PostBond?
    ensures var w, id := h.world, tx.call.id;
            var r := Apply(net, w, tx);
            && (id !in w.ctrl.actions ==> r == Err(ActionNotFound))
            && (id in w.ctrl.actions ==>
                  var a := w.ctrl.actions[id];
                  && (tx.caller != a.agent ==> r == Err(NotAgent))
                  && (tx.caller == a.agent && a.status != Initiated ==> r == Err(InvalidStatus))
                  && (tx.caller == a.agent && a.status == Initiated ==>
                        && (w.token.Allowance(a.agent, net.vault) < a.bondRequired ==> r == Err(InsufficientAllowance))
                        && (w.token.Balance(a.agent) < a.bondRequired <= w.token.Allowance(a.agent, net.vault)
                            ==> r == Err(InsufficientBalance))
                        && (r.Ok? <==> a.bondRequired <= w.token.Balance(a.agent)
                                       && a.bondRequired <= w.token.Allowance(a.agent, net.vault))))
  {
    ReachedMoney(net, start, h);
    if tx.call.id in h.world.ctrl.actions {
      assert Agree(net, h.world.ctrl.actions[tx.call.id], tx.call.id, h.world.vault.bonds);
    }
  }

  lemma PostSettles(net: Net, w: World, w': World, caller: Address, id: nat)
    requires Wired(net, w) && NoAllowances(net, w.token) && caller != net.vault && Post(net, w, caller, id) == Ok(w')
    ensures id in w.ctrl.actions && id in w'.ctrl.actions
    ensures var a := w.ctrl.actions[id];
            && w'.ctrl.actions[id] == a.(bondPosted := a.bondRequired, status := Bonded)
            && w'.token.Balance(caller) == w.token.Balance(caller) - a.bondRequired
            && w'.token.Balance(net.vault) == w.token.Balance(net.vault) + a.bondRequired
            && w'.token.Allowance(caller, net.vault) == w.token.Allowance(caller, net.vault) - a.bondRequired
            && (forall o, s :: (o, s) != (caller, net.vault) ==> w'.token.Allowance(o, s) == w.token.Allowance(o, s))
            && w'.vault.totalLocked == w.vault.totalLocked + a.bondRequired
            && w'.pool == w.pool
  {
    PostExplained(net, w, w', caller, id);
  }

  /** A bond moves in full from the agent to the vault, out of the agent's balance and of its allowance. */
  lemma PostLocksInFull(net: Net, start: World, h: History, tx: Tx)
    requires Reaches(net, start, h) && Admissible(net, h.world, tx) && tx.call.PostBond? && Apply(net, h.world, tx).Ok?
    ensures var w, w', id := h.world, Next(net, h.world, tx), tx.call.id;
            && id in w.ctrl.actions && id in w'.ctrl.actions
            && (var a := w.ctrl.actions[id];
                && tx.caller == a.agent
                && w'.ctrl.actions[id] == a.(bondPosted := a.bondRequired, status := Bonded)
                && w'.token.Balance(a.agent) == w.token.Balance(a.agent) - a.bondRequired
                && w'.token.Balance(net.vault) == w.token.Balance(net.vault) + a.bondRequired
                && w'.token.Allowance(a.agent, net.vault) == w.token.Allowance(a.agent, net.vault) - a.bondRequired
                && (forall o, s :: (o, s) != (a.agent, net.vault) ==> w'.token.Allowance(o, s) == w.token.Allowance(o, s))
                && w'.vault.totalLocked == w.vault.totalLocked + a.bondRequired
                && w'.pool == w.pool)
  {
    ReachedMoney(net, start, h);
    PostSettles(net, h.world, Apply(net, h.world, tx).value, tx.caller, tx.call.id);
  }

  // ---- Executing ------------------------------------------------------------------------------

  /** Why executing reverts: the first that applies. The bond test decides only for an action not yet bonded, whose
      bond is not zero. */
  lemma ExecuteReverts(net: Net, start: World, h: History, tx: Tx)
    requires Reaches(net, start, h) && Admissible(net, h.world, tx) && tx.call.ExecuteAction?
    ensures var w, id := h.world, tx.call.id;
            var r := Apply(net, w, tx);
            && (id !in w.ctrl.actions ==> r == Err(ActionNotFound))
            && (id in w.ctrl.actions && tx.caller != w.ctrl.actions[id].agent ==> r == Err(NotAgent))
            && (id in w.ctrl.actions && tx.caller == w.ctrl.actions[id].agent ==>
                  var a := w.ctrl.actions[id];
                  && (a.status == Initiated && a.bondRequired > 0 ==> r == Err(InsufficientBond))
                  && (a.status != Bonded && (a.status != Initiated || a.bondRequired == 0) ==> r == Err(InvalidStatus))
                  && (a.status == Bonded && a.invoiceId !in w.pool.invoices ==> r == Err(InvoiceNotFound))
                  && (a.status == Bonded && a.invoiceId in w.pool.invoices ==>
                        var i := w.pool.invoices[a.invoiceId];
                        && (i.paid ==> r == Err(InvoiceAlreadyPaid))
                        && (!i.paid && (i.amount != a.amount || i.claim != a.claim) ==> r == Err(InvoiceMismatch))
                        && (!i.paid && i.amount == a.amount && i.claim == a.claim ==>
                              && (i.vendor == net.pool ==> r == Err(CannotTargetSelf))
                              && (i.vendor != net.pool && w.token.Balance(net.pool) < a.amount ==> r == Err(InsufficientBalance)))))
  {
    ReachedMoney(net, start, h);
    if tx.call.id in h.world.ctrl.actions {
      assert Agree(net, h.world.ctrl.actions[tx.call.id], tx.call.id, h.world.vault.bonds);
    }
  }

  lemma ExecuteSettles(net: Net, w: World, w': World, caller: Address, id: nat, now: nat)
    requires Wired(net, w) && NoAllowances(net, w.token) && Execute(net, w, caller, id, now) == Ok(w')
    ensures id in w.ctrl.actions && w.ctrl.actions[id].invoiceId in w.pool.invoices
    ensures var a := w.ctrl.actions[id];
            var i := w.pool.invoices[a.invoiceId];
            && w'.ctrl.actions == w.ctrl.actions[id := a.(status := Executed, windowEnd := now + 1_000 * w.ctrl.windowSecs)]
            && w'.pool.invoices == w.pool.invoices[a.invoiceId := i.(paid := true)]
            && w'.token.Balance(i.vendor) == w.token.Balance(i.vendor) + a.amount
            && w'.token.Balance(net.pool) == w.token.Balance(net.pool) - a.amount
            && w'.vault == w.vault && w'.pool.reserve == w.pool.reserve
  {
    ExecuteExplained(net, w, w', caller, id, now);
  }

  /** Executing pays the invoice's vendor the action's amount out of the pool, marks just that invoice paid and opens the
      action's window. */
  lemma ExecutePaysInFull(net: Net, start: World, h: History, tx: Tx)
    requires Reaches(net, start, h) && Admissible(net, h.world, tx) && tx.call.ExecuteAction? && Apply(net, h.world, tx).Ok?
    ensures var w, w', id := h.world, Next(net, h.world, tx), tx.call.id;
            && id in w.ctrl.actions && w.ctrl.actions[id].invoiceId in w.pool.invoices
            && (var a := w.ctrl.actions[id];
                var i := w.pool.invoices[a.invoiceId];
                && w'.ctrl.actions == w.ctrl.actions[id := a.(status := Executed, windowEnd := tx.now + 1_000 * w.ctrl.windowSecs)]
                && w'.pool.invoices == w.pool.invoices[a.invoiceId := i.(paid := true)]
                && w'.token.Balance(i.vendor) == w.token.Balance(i.vendor) + a.amount
                && w'.token.Balance(net.pool) == w.token.Balance(net.pool) - a.amount
                && w'.vault == w.vault && w'.pool.reserve == w.pool.reserve)
  {
    ReachedMoney(net, start, h);
    ExecuteSettles(net, h.world, Apply(net, h.world, tx).value, tx.caller, tx.call.id, tx.now);
  }

  // ---- Challenging and resolving --------------------------------------------------------------

  /** Why a challenge reverts: the first that applies. The invoice of an executed action is always there. */
  lemma ChallengeReverts(net: Net, start: World, h: History, tx: Tx)
    requires Reaches(net, start, h) && Admissible(net, h.world, tx) && tx.call.ChallengeAction?
    ensures var w, id, kind := h.world, tx.call.id, tx.call.faultClass;
            var r := Apply(net, w, tx);
            && (id !in w.ctrl.actions ==> r == Err(ActionNotFound))
            && (id in w.ctrl.actions ==>
                  var a := w.ctrl.actions[id];
                  && (a.status != Executed ==> r == Err(InvalidStatus))
                  && (a.status == Executed && a.windowEnd < tx.now ==> r == Err(ChallengeWindowClosed))
                  && (a.status == Executed && tx.now <= a.windowEnd ==>
                        && (kind !in w.ctrl.verifiers ==> r == Err(UnregisteredVerifier))
                        && (kind in w.ctrl.verifiers ==> r.Ok? || r == Err(FaultNotConfirmed))))
            && ("duplicate_claim" in w.ctrl.verifiers && "delivery_contradiction" in w.ctrl.verifiers)
  {
    ReachedMoney(net, start, h);
    var w, id := h.world, tx.call.id;
    assert Matched(w) by { ReachedIsGood(net, start, h); }
    if id in w.ctrl.actions && w.ctrl.actions[id].status == Executed {
      assert IsSettled(w.ctrl, id) && Covered(w, id);
    }
  }

  /** A challenge that succeeds writes its caller, class and evidence on the action, and nothing else there. */
  lemma ChallengeWrites(net: Net, w: World, tx: Tx)
    requires tx.call.ChallengeAction? && Apply(net, w, tx).Ok?
    ensures var w', id := Next(net, w, tx), tx.call.id;
            && id in w.ctrl.actions
            && w'.ctrl.actions == w.ctrl.actions[id := w.ctrl.actions[id].(
                 status := Challenged, challenger := Some(tx.caller),
                 faultClass := tx.call.faultClass, evidence := tx.call.evidence)]
            && w'.token == w.token && w'.vault == w.vault && w'.pool == w.pool
  {
  }

  /** Why resolving reverts: no inner call is ever among the reasons. */
  lemma ResolveReverts(net: Net, start: World, h: History, tx: Tx)
    requires Reaches(net, start, h) && Admissible(net, h.world, tx) && tx.call.ResolveAction?
    ensures var w, id := h.world, tx.call.id;
            var r := Apply(net, w, tx);
            && (id !in w.ctrl.actions ==> r == Err(ActionNotFound))
            && (id in w.ctrl.actions ==>
                  var a := w.ctrl.actions[id];
                  && (a.status == Executed && tx.now <= a.windowEnd ==> r == Err(WindowStillOpen))
                  && (a.status != Executed && a.status != Challenged ==> r == Err(InvalidStatus))
                  && (a.status == Challenged || (a.status == Executed && a.windowEnd < tx.now) ==> r.Ok?))
  {
    ResolveNeverStuck(net, start, h, tx);
  }

  // ---- The delivery verifier, called directly -------------------------------------------------

  /** A direct call that names the suite's pool reverts exactly for an unknown invoice. Otherwise it spends the evidence
      exactly if it is 120 bytes, names the action and the invoice it was called for, is dated between the deadline and
      now, and carries a readable signature of its first 56 bytes under the invoice's readable 32-byte key. */
  lemma VerifyExactly(net: Net, w: World, tx: Tx)
    requires tx.call.VerifyDelivery? && tx.call.pool == net.pool
    ensures var VerifyDelivery(_, _, id, invoiceId, e) := tx.call;
            && (invoiceId !in w.pool.invoices <==> Apply(net, w, tx) == Err(InvoiceNotFound))
            && (invoiceId in w.pool.invoices <==> Apply(net, w, tx).Ok?)
            && (invoiceId in w.pool.invoices ==>
                  var i := w.pool.invoices[invoiceId];
                  var spent := && |e| == 120 && |i.buyerKey| == 32
                               && Delivery.FromLE(e[0..8]) == id && Delivery.FromLE(e[8..16]) == invoiceId
                               && i.deadline <= Delivery.FromLE(e[16..24]) <= tx.now
                               && net.ed.parsesKey(i.buyerKey) && net.ed.parsesSignature(e[56..120])
                               && net.ed.accepts(i.buyerKey, e[0..56], e[56..120]);
                  Next(net, w, tx) == w.(now := tx.now, used := if spent then w.used + {e} else w.used))
  {
    if tx.call.evidence in w.used {
      assert w.used + {tx.call.evidence} == w.used;
    }
  }

  // ---- The token ------------------------------------------------------------------------------

  /** What each call of the token does to allowances: approving sets one, raising and lowering shift it, not below
      zero, and a delegated transfer uses up what it moves. No call touches any other. */
  lemma AllowancesExactly(t: Ledger.Store, caller: Address, call: TokenCall)
    requires CallToken(t, caller, call).Ok?
    ensures var t' := CallToken(t, caller, call).value;
            forall o, s :: t'.Allowance(o, s) ==
              match call
              case Approve(spender, amount) => if (o, s) == (caller, spender) then amount else t.Allowance(o, s)
              case IncreaseAllowance(spender, more) =>
                if (o, s) == (caller, spender) then t.Allowance(o, s) + more else t.Allowance(o, s)
              case DecreaseAllowance(spender, less) =>
                if (o, s) != (caller, spender) then t.Allowance(o, s)
                else if t.Allowance(o, s) <= less then 0 else t.Allowance(o, s) - less
              case TransferFrom(holder, _, amount) =>
                if (o, s) == (holder, caller) then t.Allowance(o, s) - amount else t.Allowance(o, s)
              case _ => t.Allowance(o, s)
  {
  }

  // ---- The guarded entry points ---------------------------------------------------------------

  /** In the controller's own hands, wired or not, the vault's books and its money move together, and so do the pool's. */
  lemma GuardedCallsMoveMoney(net: Net, w: World, caller: Address, call: GuardedCall)
    requires CallGuarded(net, w, caller, call).Ok?
    ensures var w' := CallGuarded(net, w, caller, call).value;
            match call
            case VaultDeposit(id, agent, amount) =>
              && id in w'.vault.bonds && w'.vault.bonds[id] == Vault.Bond(agent, amount, Vault.Locked)
              && w'.vault.totalLocked == w.vault.totalLocked + amount
              && w'.token.Balance(net.vault) == w.token.Balance(net.vault) + amount
              && w'.token.Balance(agent) == w.token.Balance(agent) - amount
            case VaultRelease(id) =>
              && id in w.vault.bonds && id in w'.vault.bonds && w'.vault.bonds[id] == w.vault.bonds[id].(status := Vault.Released)
              && w'.vault.totalLocked == w.vault.totalLocked - w.vault.bonds[id].amount
              && w'.token.Balance(net.vault) == w.token.Balance(net.vault) - w.vault.bonds[id].amount
            case VaultSlash(id, _, _, _) =>
              && id in w.vault.bonds && id in w'.vault.bonds && w'.vault.bonds[id] == w.vault.bonds[id].(status := Vault.Slashed)
              && w'.vault.totalLocked == w.vault.totalLocked - w.vault.bonds[id].amount
              && w'.token.Balance(net.vault) == w.token.Balance(net.vault) - w.vault.bonds[id].amount
            case PoolPayout(invoiceId, _, _, amount) =>
              && invoiceId in w.pool.invoices && invoiceId in w'.pool.invoices && w'.pool.invoices[invoiceId].paid
              && w'.token.Balance(net.pool) == w.token.Balance(net.pool) - amount
              && w'.token.Balance(w.pool.invoices[invoiceId].vendor) == w.token.Balance(w.pool.invoices[invoiceId].vendor) + amount
            case PoolAddToReserve(amount) => w'.pool == w.pool.(reserve := w.pool.reserve + amount) && w'.token == w.token
            case VaultSetController(c) => w'.vault == w.vault.(controller := c, controllerFinalized := true) && w'.token == w.token
            case PoolSetController(c) => w'.pool == w.pool.(controller := c, controllerFinalized := true) && w'.token == w.token
  {
    match call
    case VaultSlash(id, _, _, bps) => Vault.ShareAtMostAll(w.vault.bonds[id].amount, bps);
    case _ =>
  }
}
