// The V1 pool and controller as objects, over the same token and vault objects as V2.
module ContractsV1 {
  import opened Common
  import opened Contracts
  import Suite
  import Pricing
  import V1

  class InvoicePool {
    const self: Address
    const token: Token
    var owner: Address
    var controller: Address
    var invoices: map<nat, V1.Invoice>
    var paidClaims: map<Bytes, nat>
    var actionDup: set<nat>
    var reserve: nat

    function View(): V1.Pool
      reads this
    {
      V1.Pool(owner, controller, invoices, paidClaims, actionDup, reserve)
    }

    constructor (caller: Address, self: Address, token: Token, controller: Address)
      ensures View() == V1.Pool(caller, controller, map[], map[], {}, 0)
      ensures this.self == self && this.token == token
    {
      this.self, this.token := self, token;
      this.owner, this.controller := caller, controller;
      invoices, paidClaims, actionDup, reserve := map[], map[], {}, 0;
    }

    method Restore(s: V1.Pool)
      modifies this
      ensures View() == s
    {
      owner, controller, invoices := s.owner, s.controller, s.invoices;
      paidClaims, actionDup, reserve := s.paidClaims, s.actionDup, s.reserve;
    }

    method SubmitInvoice(caller: Address, id: nat, amount: nat, vendor: Address, claim: Bytes) returns (r: Result<()>)
      modifies this
      ensures Follows(r, V1.AddInvoice(old(View()), caller, id, amount, vendor, claim), View())
    {
      if caller != owner {
        return Err(NotOwner);
      }
      if id in invoices {
        return Err(InvoiceAlreadyExists);
      }
      invoices := invoices[id := V1.Invoice(amount, vendor, claim, false)];
      r := Ok(());
    }

    method Payout(caller: Address, invoiceId: nat, actionId: nat, claim: Bytes, amount: nat) returns (r: Result<()>)
      modifies this, token
      ensures Follows(r, V1.Payout(self, old(View()), old(token.View()), caller, invoiceId, actionId, claim, amount),
                      (View(), token.View()))
    {
      if caller != controller {
        return Err(NotController);
      }
      if invoiceId !in invoices {
        return Err(InvoiceNotFound);
      }
      var invoice := invoices[invoiceId];
      if invoice.paid {
        return Err(InvoiceAlreadyPaid);
      }
      if invoice.amount != amount || invoice.claim != claim {
        return Err(InvoiceMismatch);
      }
      r := token.Transfer(self, invoice.vendor, amount);
      if r.Err? {
        return;
      }
      if claim in paidClaims {
        actionDup := actionDup + {actionId};
      } else {
        paidClaims := paidClaims[claim := actionId];
      }
      invoices := invoices[invoiceId := invoice.(paid := true)];
    }

    method AddToReserve(caller: Address, amount: nat) returns (r: Result<()>)
      modifies this
      ensures Follows(r, V1.AddToReserve(old(View()), caller, amount), View())
    {
      if caller != controller {
        return Err(NotController);
      }
      reserve := reserve + amount;
      r := Ok(());
    }
  }

  class BondsmanController {
    const net: Suite.Net
    const token: Token
    const vault: BondVault
    const invoicePool: InvoicePool
    var owner: Address
    var pool: Address
    var poolFinalized: bool
    var nextId: nat
    var actions: map<nat, V1.Action>
    var reputation: map<Address, Suite.Rep>
    var windowSecs: nat
    var challengerBps: nat

    /** The contracts this one calls are those at the addresses of `net`, over one token. */
    ghost predicate Connected() {
      && vault.token == token && invoicePool.token == token
      && vault.self == net.vault && invoicePool.self == net.pool
    }

    function View(): V1.Controller
      reads this
    {
      V1.Controller(owner, pool, poolFinalized, nextId, actions, reputation, windowSecs, challengerBps)
    }

    /** The whole suite's state. */
    function World(): V1.World
      reads this, token, vault, invoicePool
    {
      V1.World(token.View(), vault.View(), invoicePool.View(), View())
    }

    constructor (caller: Address, net: Suite.Net, token: Token, vault: BondVault, invoicePool: InvoicePool,
                 pool: Address, windowSecs: nat, challengerBps: nat)
      requires challengerBps <= 10_000
      requires vault.token == token && invoicePool.token == token && vault.self == net.vault && invoicePool.self == net.pool
      ensures Connected() && View() == V1.Controller(caller, pool, false, 0, map[], map[], windowSecs, challengerBps)
      ensures this.net == net && this.token == token && this.vault == vault
      ensures this.invoicePool == invoicePool
    {
      this.net, this.token, this.vault, this.invoicePool := net, token, vault, invoicePool;
      this.owner, this.pool, poolFinalized, nextId, actions, reputation := caller, pool, false, 0, map[], map[];
      this.windowSecs, this.challengerBps := windowSecs, challengerBps;
    }

    method Restore(s: V1.Controller)
      modifies this
      ensures View() == s
    {
      owner, pool, poolFinalized, nextId := s.owner, s.pool, s.poolFinalized, s.nextId;
      actions, reputation, windowSecs, challengerBps := s.actions, s.reputation, s.windowSecs, s.challengerBps;
    }

    method SetPool(caller: Address, pool: Address) returns (r: Result<()>)
      modifies this
      ensures Follows(r, V1.PointPool(old(View()), caller, pool), View())
    {
      if caller != owner {
        return Err(NotOwner);
      }
      if poolFinalized {
        return Err(PoolFinalized);
      }
      this.pool, poolFinalized := pool, true;
      r := Ok(());
    }

    method InitiateAction(caller: Address, invoiceId: nat, claim: Bytes, amount: nat, reasoning: Bytes) returns (id: nat)
      modifies this
      ensures id == old(nextId)
      ensures View() == V1.Initiate(old(View()), caller, invoiceId, claim, amount, reasoning)
    {
      id := nextId;
      var bondRequired := Pricing.BondRequired(amount, View().RepOf(caller).score);
      actions := actions[id := V1.Action(caller, invoiceId, claim, amount, reasoning, bondRequired, 0, 0,
                                            Suite.Initiated, None)];
      nextId := id + 1;
    }

    method PostBond(caller: Address, id: nat) returns (r: Result<()>)
      requires Connected()
      modifies this, vault, token
      ensures Follows(r, V1.Post(net, old(World()), caller, id), World())
    {
      var found := V1.ActionForAgent(View(), caller, id);
      if found.Err? {
        return Err(found.error);
      }
      var action := found.value;
      if action.status != Suite.Initiated {
        return Err(InvalidStatus);
      }
      r := vault.DepositAndLock(net.controller, id, action.agent, action.bondRequired);
      if r.Err? {
        return;
      }
      actions := actions[id := action.(bondPosted := action.bondRequired, status := Suite.Bonded)];
    }

    method ExecuteAction(caller: Address, id: nat, now: nat) returns (r: Result<()>)
      requires Connected()
      modifies this, invoicePool, token
      ensures Follows(r, V1.Execute(net, old(World()), caller, id, now), World())
    {
      var found := V1.ActionForAgent(View(), caller, id);
      if found.Err? {
        return Err(found.error);
      }
      var action := found.value;
      if action.bondPosted < action.bondRequired {
        return Err(InsufficientBond);
      }
      if action.status != Suite.Bonded {
        return Err(InvalidStatus);
      }
      r := invoicePool.Payout(net.controller, action.invoiceId, id, action.claim, action.amount);
      if r.Err? {
        return;
      }
      actions := actions[id := action.(windowEnd := now + windowSecs * 1_000, status := Suite.Executed)];
    }

    method ChallengeAction(caller: Address, id: nat, now: nat) returns (r: Result<()>)
      modifies this
      ensures Follows(r, V1.Challenge(old(World()), caller, id, now), World())
    {
      if id !in actions {
        return Err(ActionNotFound);
      }
      var action := actions[id];
      if action.status != Suite.Executed {
        return Err(InvalidStatus);
      }
      if now > action.windowEnd {
        return Err(ChallengeWindowClosed);
      }
      if id !in invoicePool.actionDup {
        return Err(NotDuplicate);
      }
      actions := actions[id := action.(challenger := Some(caller), status := Suite.Challenged)];
      r := Ok(());
    }

    method ResolveAction(id: nat, now: nat) returns (r: Result<()>)
      requires Connected()
      modifies this, vault, invoicePool, token
      ensures Follows(r, V1.Resolve(net, old(World()), id, now), World())
    {
      if id !in actions {
        return Err(ActionNotFound);
      }
      match actions[id].status
      case Challenged => r := ResolveSlash(id);
      case Executed => r := ResolveRefund(id, now);
      case _ => r := Err(InvalidStatus);
    }

    method ResolveSlash(id: nat) returns (r: Result<()>)
      requires Connected() && id in actions && actions[id].status.Challenged?
      modifies this, vault, invoicePool, token
      ensures Follows(r, V1.Slash(net, old(World()), id, old(actions[id])), World())
    {
      var action := actions[id];
      if action.challenger.None? {
        return Err(InvalidStatus);
      }
      var challengerAmount := action.bondPosted * challengerBps / 10_000;
      if challengerAmount > action.bondPosted {
        return Err(ArithmeticUnderflow);
      }
      r := vault.Slash(net.controller, id, action.challenger.value, pool, challengerBps);
      if r.Err? {
        return;
      }
      r := invoicePool.AddToReserve(net.controller, action.bondPosted - challengerAmount);
      if r.Err? {
        return;
      }
      var rep := View().RepOf(action.agent);
      Settle(id, Suite.Rep(rep.clean, rep.slashed + 1, rep.score - 50), Suite.ResolvedSlash);
    }

    method Settle(id: nat, rep: Suite.Rep, outcome: Suite.Status)
      requires id in actions
      modifies this
      ensures var action := old(actions[id]);
              View() == old(View()).(reputation := old(reputation)[action.agent := rep],
                                       actions := old(actions)[id := action.(status := outcome)])
    {
      reputation := reputation[actions[id].agent := rep];
      actions := actions[id := actions[id].(status := outcome)];
    }

    method ResolveRefund(id: nat, now: nat) returns (r: Result<()>)
      requires Connected() && id in actions && actions[id].status.Executed?
      modifies this, vault, token
      ensures Follows(r, V1.Refund(net, old(World()), id, old(actions[id]), now), World())
    {
      var action := actions[id];
      if now <= action.windowEnd {
        return Err(WindowStillOpen);
      }
      r := vault.Release(net.controller, id);
      if r.Err? {
        return;
      }
      var rep := View().RepOf(action.agent);
      Settle(id, Suite.Rep(rep.clean + 1, rep.slashed, rep.score + 10), Suite.ResolvedRefund);
    }
  }

  /** The V1 suite as a running system. */
  class Chain {
    const net: Suite.Net
    const token: Token
    const vault: BondVault
    const pool: InvoicePool
    const controller: BondsmanController

    ghost predicate Connected() {
      && controller.Connected() && controller.net == net && controller.token == token && controller.vault == vault
      && controller.invoicePool == pool
    }

    /** Everything a transaction may change. */
    ghost function Objects(): set<object> {
      {token, vault, pool, controller}
    }

    function State(): V1.World
      reads token, vault, pool, controller
    {
      V1.World(token.View(), vault.View(), pool.View(), controller.View())
    }

    constructor (controller: BondsmanController)
      requires controller.Connected()
      ensures Connected() && this.controller == controller
      ensures State() == controller.World()
    {
      this.controller, net, token, vault := controller, controller.net, controller.token, controller.vault;
      pool := controller.invoicePool;
    }

    method Rollback(w: V1.World)
      modifies token, vault, pool, controller
      ensures State() == w
    {
      token.Restore(w.token);
      vault.Restore(w.vault);
      pool.Restore(w.pool);
      controller.Restore(w.ctrl);
    }

    method CallVaultOrPool(tx: V1.Tx) returns (r: Result<()>)
      requires Connected() && tx.call.IsGuarded()
      modifies token, vault, pool
      ensures Follows(r, V1.Apply(net, old(State()), tx), State())
    {
      match tx.call
      case VaultSetController(c) => r := vault.SetController(tx.caller, c);
      case VaultDeposit(id, agent, amount) => r := vault.DepositAndLock(tx.caller, id, agent, amount);
      case VaultRelease(id) => r := vault.Release(tx.caller, id);
      case VaultSlash(id, challenger, target, bps) => r := vault.Slash(tx.caller, id, challenger, target, bps);
      case PoolPayout(invoiceId, id, claim, amount) => r := pool.Payout(tx.caller, invoiceId, id, claim, amount);
      case PoolAddToReserve(amount) => r := pool.AddToReserve(tx.caller, amount);
    }

    method Call(tx: V1.Tx) returns (r: Result<()>)
      requires Connected()
      modifies token, vault, pool, controller
      ensures Follows(r, V1.Apply(net, old(State()), tx), State())
    {
      match tx.call
      case Token(call) => r := token.Call(tx.caller, call);
      case SubmitInvoice(id, amount, vendor, claim) => r := pool.SubmitInvoice(tx.caller, id, amount, vendor, claim);
      case SetPool(target) => r := controller.SetPool(tx.caller, target);
      case InitiateAction(invoiceId, claim, amount, reasoning) =>
        var _ := controller.InitiateAction(tx.caller, invoiceId, claim, amount, reasoning);
        r := Ok(());
      case PostBond(id) => r := controller.PostBond(tx.caller, id);
      case ExecuteAction(id) => r := controller.ExecuteAction(tx.caller, id, tx.now);
      case ChallengeAction(id) => r := controller.ChallengeAction(tx.caller, id, tx.now);
      case ResolveAction(id) => r := controller.ResolveAction(id, tx.now);
      case _ => r := CallVaultOrPool(tx);
    }

    method Submit(tx: V1.Tx) returns (r: Result<()>)
      requires Connected()
      modifies token, vault, pool, controller
      ensures r.Ok? <==> V1.Apply(net, old(State()), tx).Ok?
      ensures State() == V1.Next(net, old(State()), tx)
    {
      var before := State();
      r := Call(tx);
      if r.Err? {
        Rollback(before);
      }
    }

    method SubmitAll(txs: seq<V1.Tx>)
      requires Connected()
      modifies token, vault, pool, controller
      ensures State() == V1.Run(net, old(State()), txs)
    {
      for i := 0 to |txs|
        invariant V1.Run(net, State(), txs[i..]) == V1.Run(net, old(State()), txs)
      {
        assert txs[i..][0] == txs[i] && txs[i..][1..] == txs[i + 1..];
        var _ := Submit(txs[i]);
      }
    }
  }
}
