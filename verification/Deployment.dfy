// The deployed suite as a running system: transactions are dispatched to the contract objects one at a
// time, and a transaction that reverts is rolled back across all of them.
module Deployment {
  import opened Common
  import opened Contracts
  import opened Suite
  import Journal
  import Ledger
  import Pool
  import Vault
  import Pricing
  import Reachable

  class Chain {
    const net: Net
    const token: Token
    const vault: BondVault
    const pool: InvoicePool
    const delivery: DeliveryVerifier
    const controller: BondsmanController
    var now: nat

    ghost predicate Connected() {
      && controller.Connected() && controller.net == net && controller.token == token && controller.vault == vault
      && controller.invoicePool == pool && controller.delivery == delivery
    }

    function State(): World
      reads this, token, vault, pool, delivery, controller
    {
      World(token.View(), vault.View(), pool.View(), controller.View(), delivery.used, now)
    }

    constructor (controller: BondsmanController)
      requires controller.Connected()
      ensures Connected() && this.controller == controller
      ensures State() == controller.World(0)
    {
      this.controller, net, token, vault := controller, controller.net, controller.token, controller.vault;
      pool, delivery, now := controller.invoicePool, controller.delivery, 0;
    }

    /** Everything a transaction may change. */
    ghost function Objects(): set<object> {
      {this, token, vault, pool, delivery, controller}
    }

    method Rollback(w: World)
      modifies this, token, vault, pool, delivery, controller
      ensures State() == w
    {
      token.Restore(w.token);
      vault.Restore(w.vault);
      pool.Restore(w.pool);
      delivery.Restore(w.used);
      controller.Restore(w.ctrl);
      now := w.now;
    }

    method CallGuarded(caller: Address, call: GuardedCall) returns (r: Result<()>)
      requires Connected()
      modifies token, vault, pool
      ensures Follows(r, Suite.CallGuarded(net, old(State()), caller, call), State())
    {
      match call
      case VaultSetController(c) => r := vault.SetController(caller, c);
      case VaultDeposit(id, agent, amount) => r := vault.DepositAndLock(caller, id, agent, amount);
      case VaultRelease(id) => r := vault.Release(caller, id);
      case VaultSlash(id, challenger, target, bps) => r := vault.Slash(caller, id, challenger, target, bps);
      case PoolSetController(c) => r := pool.SetController(caller, c);
      case PoolPayout(invoiceId, id, claim, amount) => r := pool.Payout(caller, invoiceId, id, claim, amount);
      case PoolAddToReserve(amount) => r := pool.AddToReserve(caller, amount);
    }

    method Call(tx: Tx) returns (r: Result<()>)
      requires Connected()
      modifies token, vault, pool, delivery, controller
      ensures Follows(r, Apply(net, old(State()), tx), State())
    {
      match tx.call
      case Token(call) => r := token.Call(tx.caller, call);
      case Guarded(call) => r := CallGuarded(tx.caller, call);
      case SubmitInvoice(id, terms) => r := pool.SubmitInvoice(tx.caller, id, terms);
      case VerifyDelivery(target, answer, id, invoiceId, evidence) =>
        var invoice := if target == net.pool then Pool.GetInvoice(pool.View(), invoiceId) else answer;
        var verdict := delivery.Verify(net.ed, invoice, id, invoiceId, evidence, tx.now);
        r := if verdict.Ok? then Ok(()) else Err(verdict.error);
      case _ => r := CallController(tx);
    }

    method CallController(tx: Tx) returns (r: Result<()>)
      requires Connected()
      requires !tx.call.Token? && !tx.call.Guarded? && !tx.call.SubmitInvoice? && !tx.call.VerifyDelivery?
      modifies token, vault, pool, delivery, controller
      ensures Follows(r, Apply(net, old(State()), tx), State())
    {
      match tx.call
      case SetPool(target) => r := controller.SetPool(tx.caller, target);
      case RegisterVerifier(faultClass, verifier) => r := controller.RegisterVerifier(tx.caller, faultClass, verifier);
      case InitiateAction(invoiceId, claim, amount, reasoning) =>
        var _ := controller.InitiateAction(tx.caller, invoiceId, claim, amount, reasoning);
        r := Ok(());
      case PostBond(id) => r := controller.PostBond(tx.caller, id, now);
      case ExecuteAction(id) => r := controller.ExecuteAction(tx.caller, id, tx.now, now);
      case ChallengeAction(id, faultClass, evidence) =>
        r := controller.ChallengeAction(tx.caller, id, faultClass, evidence, tx.now, now);
      case ResolveAction(id) => r := controller.ResolveAction(id, tx.now, now);
    }

    /** One transaction: all of its effect, or none of it. */
    method Submit(tx: Tx) returns (r: Result<()>)
      requires Connected()
      modifies this, token, vault, pool, delivery, controller
      ensures r.Ok? <==> Apply(net, old(State()), tx).Ok?
      ensures State() == Next(net, old(State()), tx)
    {
      var before := State();
      r := Call(tx);
      if r.Err? {
        Rollback(before);
      }
      now := tx.now;
    }

    /** A whole run of transactions ends in the state its history says. */
    method SubmitAll(txs: seq<Tx>)
      requires Connected()
      modifies this, token, vault, pool, delivery, controller
      ensures State() == Journal.Run(net, Journal.History(old(State()), []), txs).world
    {
      ghost var h := Journal.History(State(), []);
      for i := 0 to |txs|
        invariant State() == h.world
        invariant Journal.Run(net, Journal.History(old(State()), []), txs) == Journal.Run(net, h, txs[i..])
      {
        assert txs[i..][0] == txs[i] && txs[i..][1..] == txs[i + 1..];
        h := Journal.Record(net, h, txs[i]);
        var _ := Submit(txs[i]);
      }
    }
  }

  /** The script's last step: test money for the agent and for the pool. */
  method Fund(token: Token, deployer: Address, agent: Address, pool: Address)
    requires token.owner == deployer && token.supply == Total(token.balances)
    modifies token
    ensures token.owner == old(token.owner) && token.allowances == old(token.allowances)
    ensures token.supply == Total(token.balances) == old(token.supply) + 2_500_000_000_000_000
    ensures agent != pool ==> token.balances == old(token.balances)[agent := old(token.View()).Balance(agent) + 500_000_000_000_000]
                                                [pool := old(token.View()).Balance(pool) + 2_000_000_000_000_000]
  {
    TotalUpdate(token.balances, agent, token.View().Balance(agent) + 500_000 * Pricing.TOKEN_UNIT);
    var r := token.Mint(deployer, agent, 500_000 * Pricing.TOKEN_UNIT);
    TotalUpdate(token.balances, pool, token.View().Balance(pool) + 2_000_000 * Pricing.TOKEN_UNIT);
    r := token.Mint(deployer, pool, 2_000_000 * Pricing.TOKEN_UNIT);
  }

  /** The script's wiring step: each contract is pointed at the others, once and for all. */
  method Wire(controller: BondsmanController, deployer: Address)
    requires controller.Connected() && !controller.poolFinalized
    requires controller.owner == controller.vault.owner == controller.invoicePool.owner == deployer
    requires !controller.vault.controllerFinalized && !controller.invoicePool.controllerFinalized
    modifies controller, controller.vault, controller.invoicePool
    ensures var net := controller.net;
            && controller.vault.View() == old(controller.vault.View()).(controller := net.controller, controllerFinalized := true)
            && controller.invoicePool.View() == old(controller.invoicePool.View()).(controller := net.controller, controllerFinalized := true)
            && controller.View() == old(controller.View()).(pool := net.pool, poolFinalized := true,
                 verifiers := old(controller.verifiers)[DUPLICATE := net.duplicateVerifier][DELIVERY := net.deliveryVerifier])
  {
    var net := controller.net;
    var r := controller.vault.SetController(deployer, net.controller);
    r := controller.SetPool(deployer, net.pool);
    r := controller.invoicePool.SetController(deployer, net.controller);
    r := controller.RegisterVerifier(deployer, DUPLICATE, net.duplicateVerifier);
    r := controller.RegisterVerifier(deployer, DELIVERY, net.deliveryVerifier);
  }

  /** The contracts as first deployed, in the script's order, with the deployer standing in for the later ones. */
  method Create(net: Net, deployer: Address) returns (controller: BondsmanController)
    ensures fresh(controller) && fresh(controller.token) && fresh(controller.vault)
    ensures fresh(controller.invoicePool) && fresh(controller.delivery)
    ensures controller.Connected() && controller.net == net
    ensures controller.token.View() == Ledger.Store(deployer, 0, map[], map[])
    ensures controller.vault.View() == Vault.Store(deployer, deployer, false, map[], 0)
    ensures controller.invoicePool.View() == Pool.Store(deployer, net.controller, false, map[], map[], {}, 0)
    ensures controller.delivery.used == {}
    ensures controller.View() == Controller(deployer, deployer, false, 0, map[], map[], 1_800, 5_000, map[])
  {
    var token := new Token(deployer);
    var vault := new BondVault(deployer, net.vault, token, deployer);
    var pool := new InvoicePool(deployer, net.pool, token, net.controller);
    var delivery := new DeliveryVerifier();
    controller := new BondsmanController(deployer, net, token, vault, pool, delivery, deployer, 1_800, 5_000);
  }

  /** The V2 deployment script: afterwards the suite is wired, funded and unused, so runs can start from it. */
  method DeployV2(net: Net, deployer: Address, agent: Address) returns (chain: Chain)
    requires net.vault != net.pool
    ensures chain.Connected() && chain.net == net && Reachable.Genesis(net, chain.State())
    ensures chain.State().ctrl.windowSecs == 1_800 && chain.State().ctrl.challengerBps == 5_000
    ensures chain.State().ctrl.verifiers
         == map["duplicate_claim" := net.duplicateVerifier, "delivery_contradiction" := net.deliveryVerifier]
    ensures agent != net.pool ==>
              chain.State().token.balances == map[agent := 500_000_000_000_000, net.pool := 2_000_000_000_000_000]
    ensures chain.State().token.owner == chain.State().vault.owner == chain.State().pool.owner == chain.State().ctrl.owner == deployer
    ensures chain.State().pool.invoices == map[] && chain.State().used == {}
  {
    var controller := Create(net, deployer);
    Wire(controller, deployer);
    Fund(controller.token, deployer, agent, net.pool);
    chain := new Chain(controller);
  }
}
