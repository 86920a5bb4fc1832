// The deployed contracts as objects that update their own storage, each method proved against the
// transition it is meant to be. A revert may leave storage half written: the transaction restores it.
module Contracts {
  import opened Common
  import Ledger
  import Vault
  import Pool
  import Delivery
  import Pricing
  import Suite

  class Token {
    var owner: Address
    var supply: nat
    var balances: map<Address, nat>
    var allowances: map<(Address, Address), nat>

    function View(): Ledger.Store
      reads this
    {
      Ledger.Store(owner, supply, balances, allowances)
    }

    constructor (caller: Address)
      ensures View() == Ledger.Store(caller, 0, map[], map[])
    {
      owner, supply, balances, allowances := caller, 0, map[], map[];
    }

    method Restore(s: Ledger.Store)
      modifies this
      ensures View() == s
    {
      owner, supply, balances, allowances := s.owner, s.supply, s.balances, s.allowances;
    }

    method Mint(caller: Address, to: Address, amount: nat) returns (r: Result<()>)
      modifies this
      ensures Follows(r, Ledger.Mint(old(View()), caller, to, amount), View())
    {
      if caller != owner {
        return Err(NotOwner);
      }
      supply := supply + amount;
      balances := balances[to := View().Balance(to) + amount];
      r := Ok(());
    }

    method Transfer(caller: Address, to: Address, amount: nat) returns (r: Result<()>)
      modifies this
      ensures Follows(r, Ledger.Transfer(old(View()), caller, to, amount), View())
    {
      if caller == to {
        return Err(CannotTargetSelf);
      }
      if View().Balance(caller) < amount {
        return Err(InsufficientBalance);
      }
      balances := balances[caller := View().Balance(caller) - amount];
      balances := balances[to := View().Balance(to) + amount];
      r := Ok(());
    }

    method TransferFrom(caller: Address, holder: Address, to: Address, amount: nat) returns (r: Result<()>)
      modifies this
      ensures Follows(r, Ledger.TransferFrom(old(View()), caller, holder, to, amount), View())
    {
      if holder == to {
        return Err(CannotTargetSelf);
      }
      if View().Allowance(holder, caller) < amount {
        return Err(InsufficientAllowance);
      }
      allowances := allowances[(holder, caller) := View().Allowance(holder, caller) - amount];
      r := Transfer(holder, to, amount);
    }

    method Allow(caller: Address, spender: Address, amount: nat) returns (r: Result<()>)
      modifies this
      ensures Follows(r, Ledger.Allow(old(View()), caller, spender, amount), View())
    {
      if caller == spender {
        return Err(CannotTargetSelf);
      }
      allowances := allowances[(caller, spender) := amount];
      r := Ok(());
    }

    /** Any of the token's entry points. */
    method Call(caller: Address, call: Suite.TokenCall) returns (r: Result<()>)
      modifies this
      ensures Follows(r, Suite.CallToken(old(View()), caller, call), View())
    {
      match call
      case Mint(to, amount) => r := Mint(caller, to, amount);
      case Approve(spender, amount) => r := Allow(caller, spender, amount);
      case IncreaseAllowance(spender, more) =>
        r := Allow(caller, spender, View().Allowance(caller, spender) + more);
      case DecreaseAllowance(spender, less) =>
        var left := View().Allowance(caller, spender);
        r := Allow(caller, spender, if less < left then left - less else 0);
      case Transfer(to, amount) => r := Transfer(caller, to, amount);
      case TransferFrom(holder, to, amount) => r := TransferFrom(caller, holder, to, amount);
    }
  }

  class BondVault {
    const self: Address
    const token: Token
    var owner: Address
    var controller: Address
    var controllerFinalized: bool
    var bonds: map<nat, Vault.Bond>
    var totalLocked: nat

    function View(): Vault.Store
      reads this
    {
      Vault.Store(owner, controller, controllerFinalized, bonds, totalLocked)
    }

    constructor (caller: Address, self: Address, token: Token, controller: Address)
      ensures View() == Vault.Store(caller, controller, false, map[], 0)
      ensures this.self == self && this.token == token
    {
      this.self, this.token := self, token;
      this.owner, this.controller, controllerFinalized, bonds, totalLocked := caller, controller, false, map[], 0;
    }

    method Restore(s: Vault.Store)
      modifies this
      ensures View() == s
    {
      owner, controller, controllerFinalized := s.owner, s.controller, s.controllerFinalized;
      bonds, totalLocked := s.bonds, s.totalLocked;
    }

    method SetController(caller: Address, controller: Address) returns (r: Result<()>)
      modifies this
      ensures Follows(r, Vault.SetController(old(View()), caller, controller), View())
    {
      if caller != owner {
        return Err(NotOwner);
      }
      if controllerFinalized {
        return Err(ControllerFinalized);
      }
      this.controller, controllerFinalized := controller, true;
      r := Ok(());
    }

    method DepositAndLock(caller: Address, id: nat, agent: Address, amount: nat) returns (r: Result<()>)
      modifies this, token
      ensures Follows(r, Vault.DepositAndLock(self, old(View()), old(token.View()), caller, id, agent, amount),
                      (View(), token.View()))
    {
      if caller != controller {
        return Err(NotController);
      }
      if id in bonds {
        return Err(BondAlreadyExists);
      }
      r := token.TransferFrom(self, agent, self, amount);
      if r.Err? {
        return;
      }
      bonds := bonds[id := Vault.Bond(agent, amount, Vault.Locked)];
      totalLocked := totalLocked + amount;
    }

    method Release(caller: Address, id: nat) returns (r: Result<()>)
      modifies this, token
      ensures Follows(r, Vault.Release(self, old(View()), old(token.View()), caller, id), (View(), token.View()))
    {
      if caller != controller {
        return Err(NotController);
      }
      var found := Vault.LockedBond(View(), id);
      if found.Err? {
        return Err(found.error);
      }
      var bond := found.value;
      r := token.Transfer(self, bond.agent, bond.amount);
      if r.Err? {
        return;
      }
      if totalLocked < bond.amount {
        return Err(ArithmeticUnderflow);
      }
      totalLocked := totalLocked - bond.amount;
      bonds := bonds[id := bond.(status := Vault.Released)];
    }

    method Slash(caller: Address, id: nat, challenger: Address, pool: Address, bps: nat) returns (r: Result<()>)
      modifies this, token
      ensures Follows(r, Vault.Slash(self, old(View()), old(token.View()), caller, id, challenger, pool, bps),
                      (View(), token.View()))
    {
      if caller != controller {
        return Err(NotController);
      }
      if bps > 10_000 {
        return Err(InvalidBasisPoints);
      }
      var found := Vault.LockedBond(View(), id);
      if found.Err? {
        return Err(found.error);
      }
      var bond := found.value;
      var reward := bond.amount * bps / 10_000;
      Vault.ShareAtMostAll(bond.amount, bps);
      r := token.Transfer(self, challenger, reward);
      if r.Err? {
        return;
      }
      r := token.Transfer(self, pool, bond.amount - reward);
      if r.Err? {
        return;
      }
      if totalLocked < bond.amount {
        return Err(ArithmeticUnderflow);
      }
      totalLocked := totalLocked - bond.amount;
      bonds := bonds[id := bond.(status := Vault.Slashed)];
    }
  }

  class InvoicePool {
    const self: Address
    const token: Token
    var owner: Address
    var controller: Address
    var controllerFinalized: bool
    var invoices: map<nat, Pool.Invoice>
    var paidClaims: map<Bytes, nat>
    var actionDup: set<nat>
    var reserve: nat

    function View(): Pool.Store
      reads this
    {
      Pool.Store(owner, controller, controllerFinalized, invoices, paidClaims, actionDup, reserve)
    }

    constructor (caller: Address, self: Address, token: Token, controller: Address)
      ensures View() == Pool.Store(caller, controller, false, map[], map[], {}, 0)
      ensures this.self == self && this.token == token
    {
      this.self, this.token := self, token;
      this.owner, this.controller, controllerFinalized := caller, controller, false;
      invoices, paidClaims, actionDup, reserve := map[], map[], {}, 0;
    }

    method Restore(s: Pool.Store)
      modifies this
      ensures View() == s
    {
      owner, controller, controllerFinalized := s.owner, s.controller, s.controllerFinalized;
      invoices, paidClaims, actionDup, reserve := s.invoices, s.paidClaims, s.actionDup, s.reserve;
    }

    method SetController(caller: Address, controller: Address) returns (r: Result<()>)
      modifies this
      ensures Follows(r, Pool.SetController(old(View()), caller, controller), View())
    {
      if caller != owner {
        return Err(NotOwner);
      }
      if controllerFinalized {
        return Err(ControllerFinalized);
      }
      this.controller, controllerFinalized := controller, true;
      r := Ok(());
    }

    method SubmitInvoice(caller: Address, id: nat, terms: Pool.Invoice) returns (r: Result<()>)
      modifies this
      ensures Follows(r, Pool.SubmitInvoice(old(View()), caller, id, terms), View())
      ensures r.Ok? <==> caller == old(owner) && id !in old(invoices)
      ensures r.Ok? ==> id in invoices
      ensures r.Ok? ==>
                && invoices[id].amount == terms.amount && invoices[id].vendor == terms.vendor && invoices[id].claim == terms.claim
                && invoices[id].purchaseOrder == terms.purchaseOrder && invoices[id].deadline == terms.deadline
                && invoices[id].buyerKey == terms.buyerKey && !invoices[id].paid
    {
      if caller != owner {
        return Err(NotOwner);
      }
      if id in invoices {
        return Err(InvoiceAlreadyExists);
      }
      invoices := invoices[id := terms.(paid := false)];
      r := Ok(());
    }

    method Payout(caller: Address, invoiceId: nat, actionId: nat, claim: Bytes, amount: nat) returns (r: Result<()>)
      modifies this, token
      ensures Follows(r, Pool.Payout(self, old(View()), old(token.View()), caller, invoiceId, actionId, claim, amount),
                      (View(), token.View()))
    {
      if caller != controller {
        return Err(NotController);
      }
      if invoiceId !in invoices {
        return Err(InvoiceNotFound);
      }
      var invoice := invoices[invoiceId];
      if invoice.paid {
        return Err(InvoiceAlreadyPaid);
      }
      if invoice.amount != amount || invoice.claim != claim {
        return Err(InvoiceMismatch);
      }
      r := token.Transfer(self, invoice.vendor, amount);
      if r.Err? {
        return;
      }
      if claim in paidClaims {
        actionDup := actionDup + {actionId};
      } else {
        paidClaims := paidClaims[claim := actionId];
      }
      invoices := invoices[invoiceId := invoice.(paid := true)];
    }

    method AddToReserve(caller: Address, amount: nat) returns (r: Result<()>)
      modifies this
      ensures Follows(r, Pool.AddToReserve(old(View()), caller, amount), View())
    {
      if caller != controller {
        return Err(NotController);
      }
      reserve := reserve + amount;
      r := Ok(());
    }
  }

  class DeliveryVerifier {
    var used: set<Bytes>

    constructor ()
      ensures used == {}
    {
      used := {};
    }

    method Restore(s: set<Bytes>)
      modifies this
      ensures used == s
    {
      used := s;
    }

    method Verify(ed: Delivery.Ed25519, invoice: Option<Pool.Invoice>, actionId: nat, invoiceId: nat, evidence: Bytes, now: nat)
      returns (r: Result<bool>)
      modifies this
      ensures match Delivery.Verify(ed, invoice, old(used), actionId, invoiceId, evidence, now)
              case Ok(spec) => r == Ok(spec.0) && used == spec.1
              case Err(error) => r == Err(error)
    {
      if invoice.None? {
        return Err(InvoiceNotFound);
      }
      var buyerKey := invoice.value.buyerKey;
      if |evidence| != 120 || |buyerKey| != 32 || evidence in used {
        return Ok(false);
      }
      var action := Delivery.FromLE(evidence[0..8]);
      var named := Delivery.FromLE(evidence[8..16]);
      var occurred := Delivery.FromLE(evidence[16..24]);
      if action != actionId || named != invoiceId || occurred < invoice.value.deadline || occurred > now {
        return Ok(false);
      }
      if !ed.parsesKey(buyerKey) || !ed.parsesSignature(evidence[56..120]) {
        return Ok(false);
      }
      if !ed.accepts(buyerKey, evidence[0..56], evidence[56..120]) {
        return Ok(false);
      }
      used := used + {evidence};
      r := Ok(true);
    }
  }

  class BondsmanController {
    const net: Suite.Net
    const token: Token
    const vault: BondVault
    const invoicePool: InvoicePool
    const delivery: DeliveryVerifier
    var owner: Address
    var pool: Address
    var poolFinalized: bool
    var nextId: nat
    var actions: map<nat, Suite.Action>
    var reputation: map<Address, Suite.Rep>
    var windowSecs: nat
    var challengerBps: nat
    var verifiers: map<string, Address>

    /** The contracts this one calls are those at the addresses of `net`, over one token. */
    ghost predicate Connected() {
      && vault.token == token && invoicePool.token == token
      && vault.self == net.vault && invoicePool.self == net.pool
    }

    function View(): Suite.Controller
      reads this
    {
      Suite.Controller(owner, pool, poolFinalized, nextId, actions, reputation, windowSecs, challengerBps, verifiers)
    }

    /** The whole suite's state. This contract reads no clock but the block time its entry points are given. */
    function World(now: nat): Suite.World
      reads this, token, vault, invoicePool, delivery
    {
      Suite.World(token.View(), vault.View(), invoicePool.View(), View(), delivery.used, now)
    }

    constructor (caller: Address, net: Suite.Net, token: Token, vault: BondVault, invoicePool: InvoicePool,
                 delivery: DeliveryVerifier, pool: Address, windowSecs: nat, challengerBps: nat)
      requires challengerBps <= 10_000
      requires vault.token == token && invoicePool.token == token && vault.self == net.vault && invoicePool.self == net.pool
      ensures Connected() && View() == Suite.Controller(caller, pool, false, 0, map[], map[], windowSecs, challengerBps, map[])
      ensures this.net == net && this.token == token && this.vault == vault
      ensures this.invoicePool == invoicePool && this.delivery == delivery
    {
      this.net, this.token, this.vault, this.invoicePool, this.delivery := net, token, vault, invoicePool, delivery;
      this.owner, this.pool, poolFinalized, nextId, actions, reputation := caller, pool, false, 0, map[], map[];
      this.windowSecs, this.challengerBps, verifiers := windowSecs, challengerBps, map[];
    }

    method Restore(s: Suite.Controller)
      modifies this
      ensures View() == s
    {
      owner, pool, poolFinalized, nextId := s.owner, s.pool, s.poolFinalized, s.nextId;
      actions, reputation, verifiers := s.actions, s.reputation, s.verifiers;
      windowSecs, challengerBps := s.windowSecs, s.challengerBps;
    }

    method SetPool(caller: Address, pool: Address) returns (r: Result<()>)
      modifies this
      ensures Follows(r, Suite.PointPool(old(View()), caller, pool), View())
    {
      if caller != owner {
        return Err(NotOwner);
      }
      if poolFinalized {
        return Err(PoolFinalized);
      }
      this.pool, poolFinalized := pool, true;
      r := Ok(());
    }

    method RegisterVerifier(caller: Address, faultClass: string, verifier: Address) returns (r: Result<()>)
      modifies this
      ensures Follows(r, Suite.AddVerifier(old(View()), caller, faultClass, verifier), View())
    {
      if caller != owner {
        return Err(NotOwner);
      }
      verifiers := verifiers[faultClass := verifier];
      r := Ok(());
    }

    method InitiateAction(caller: Address, invoiceId: nat, claim: Bytes, amount: nat, reasoning: Bytes) returns (id: nat)
      modifies this
      ensures id == old(nextId)
      ensures View() == Suite.Initiate(old(View()), caller, invoiceId, claim, amount, reasoning)
    {
      id := nextId;
      var bondRequired := Pricing.BondRequired(amount, View().RepOf(caller).score);
      actions := actions[id := Suite.Action(caller, invoiceId, claim, amount, reasoning, bondRequired, 0, 0,
                                            Suite.Initiated, None, "", [])];
      nextId := id + 1;
    }

    method PostBond(caller: Address, id: nat, ghost clock: nat) returns (r: Result<()>)
      requires Connected()
      modifies this, vault, token
      ensures Follows(r, Suite.Post(net, old(World(clock)), caller, id), World(clock))
    {
      var found := Suite.AgentAction(View(), caller, id);
      if found.Err? {
        return Err(found.error);
      }
      var action := found.value;
      if action.status != Suite.Initiated {
        return Err(InvalidStatus);
      }
      r := vault.DepositAndLock(net.controller, id, action.agent, action.bondRequired);
      if r.Err? {
        return;
      }
      actions := actions[id := action.(bondPosted := action.bondRequired, status := Suite.Bonded)];
    }

    method ExecuteAction(caller: Address, id: nat, now: nat, ghost clock: nat) returns (r: Result<()>)
      requires Connected()
      modifies this, invoicePool, token
      ensures Follows(r, Suite.Execute(net, old(World(clock)), caller, id, now), World(clock))
    {
      var found := Suite.AgentAction(View(), caller, id);
      if found.Err? {
        return Err(found.error);
      }
      var action := found.value;
      if action.bondPosted < action.bondRequired {
        return Err(InsufficientBond);
      }
      if action.status != Suite.Bonded {
        return Err(InvalidStatus);
      }
      r := invoicePool.Payout(net.controller, action.invoiceId, id, action.claim, action.amount);
      if r.Err? {
        return;
      }
      actions := actions[id := action.(windowEnd := now + windowSecs * 1_000, status := Suite.Executed)];
    }

    method ChallengeAction(caller: Address, id: nat, faultClass: string, evidence: Bytes, now: nat, ghost clock: nat)
      returns (r: Result<()>)
      modifies this, delivery
      ensures Follows(r, Suite.Challenge(net, old(World(clock)), caller, id, faultClass, evidence, now),
                      World(clock))
    {
      if id !in actions {
        return Err(ActionNotFound);
      }
      var action := actions[id];
      if action.status != Suite.Executed {
        return Err(InvalidStatus);
      }
      if now > action.windowEnd {
        return Err(ChallengeWindowClosed);
      }
      if faultClass !in verifiers {
        return Err(UnregisteredVerifier);
      }
      var confirmed := false;
      if faultClass == Suite.DUPLICATE {
        confirmed := id in invoicePool.actionDup;
      } else if faultClass == Suite.DELIVERY {
        var invoice := Pool.GetInvoice(invoicePool.View(), action.invoiceId);
        var verdict := delivery.Verify(net.ed, invoice, id, action.invoiceId, evidence, now);
        if verdict.Err? {
          return Err(verdict.error);
        }
        confirmed := verdict.value;
      }
      if !confirmed {
        return Err(FaultNotConfirmed);
      }
      actions := actions[id := action.(challenger := Some(caller), status := Suite.Challenged,
                                       faultClass := faultClass, evidence := evidence)];
      r := Ok(());
    }

    method ResolveAction(id: nat, now: nat, ghost clock: nat) returns (r: Result<()>)
      requires Connected()
      modifies this, vault, invoicePool, token
      ensures Follows(r, Suite.Resolve(net, old(World(clock)), id, now), World(clock))
    {
      if id !in actions {
        return Err(ActionNotFound);
      }
      match actions[id].status
      case Challenged => r := ResolveSlash(id, clock);
      case Executed => r := ResolveRefund(id, now, clock);
      case _ => r := Err(InvalidStatus);
    }

    method ResolveSlash(id: nat, ghost clock: nat) returns (r: Result<()>)
      requires Connected() && id in actions && actions[id].status.Challenged?
      modifies this, vault, invoicePool, token
      ensures Follows(r, Suite.Slash(net, old(World(clock)), id, old(actions[id])), World(clock))
    {
      var action := actions[id];
      if action.challenger.None? {
        return Err(InvalidStatus);
      }
      var challengerAmount := action.bondPosted * challengerBps / 10_000;
      if challengerAmount > action.bondPosted {
        return Err(ArithmeticUnderflow);
      }
      r := vault.Slash(net.controller, id, action.challenger.value, pool, challengerBps);
      if r.Err? {
        return;
      }
      r := invoicePool.AddToReserve(net.controller, action.bondPosted - challengerAmount);
      if r.Err? {
        return;
      }
      var rep := View().RepOf(action.agent);
      Settle(id, Suite.Rep(rep.clean, rep.slashed + 1, rep.score - 50), Suite.ResolvedSlash);
    }

    method Settle(id: nat, rep: Suite.Rep, outcome: Suite.Status)
      requires id in actions
      modifies this
      ensures var action := old(actions[id]);
              View() == old(View()).SetRep(action.agent, rep).Set(id, action.(status := outcome))
    {
      reputation := reputation[actions[id].agent := rep];
      actions := actions[id := actions[id].(status := outcome)];
    }

    method ResolveRefund(id: nat, now: nat, ghost clock: nat) returns (r: Result<()>)
      requires Connected() && id in actions && actions[id].status.Executed?
      modifies this, vault, token
      ensures Follows(r, Suite.Refund(net, old(World(clock)), id, old(actions[id]), now), World(clock))
    {
      var action := actions[id];
      if now <= action.windowEnd {
        return Err(WindowStillOpen);
      }
      r := vault.Release(net.controller, id);
      if r.Err? {
        return;
      }
      var rep := View().RepOf(action.agent);
      Settle(id, Suite.Rep(rep.clean + 1, rep.slashed, rep.score + 10), Suite.ResolvedRefund);
    }
  }
}
