// The V1 pool and controller: the readable reference the V2 suite must still behave like. The V1 vault has
// the storage transitions of `Vault`, and V1 prices bonds with the same formula.
module V1 {
  import opened Common
  import opened Pricing
  import Ledger
  import Vault
  import Suite

  datatype Invoice = Invoice(amount: nat, vendor: Address, claim: Bytes, paid: bool)

  datatype Pool = Pool(
    owner: Address,
    controller: Address,
    invoices: map<nat, Invoice>,
    paidClaims: map<Bytes, nat>,
    actionDup: set<nat>,
    reserve: nat)

  datatype Action = Action(
    agent: Address,
    invoiceId: nat,
    claim: Bytes,
    amount: nat,
    reasoning: Bytes,
    bondRequired: nat,
    bondPosted: nat,
    windowEnd: nat,
    status: Suite.Status,
    challenger: Option<Address>)

  datatype Controller = Controller(
    owner: Address,
    pool: Address,
    poolFinalized: bool,
    nextId: nat,
    actions: map<nat, Action>,
    reputation: map<Address, Suite.Rep>,
    windowSecs: nat,
    challengerBps: nat)
  {
    function RepOf(agent: Address): Suite.Rep {
      if agent in reputation then reputation[agent] else Suite.Rep(0, 0, 0)
    }
  }

  datatype World = World(token: Ledger.Store, vault: Vault.Store, pool: Pool, ctrl: Controller)

  // ---- InvoicePool ----------------------------------------------------------------------------

  function AddInvoice(p: Pool, caller: Address, id: nat, amount: nat, vendor: Address, claim: Bytes): Result<Pool> {
    if caller != p.owner then Err(NotOwner)
    else if id in p.invoices then Err(InvoiceAlreadyExists)
    else Ok(p.(invoices := p.invoices[id := Invoice(amount, vendor, claim, false)]))
  }

  function Payout(self: Address, p: Pool, t: Ledger.Store, caller: Address,
                  invoiceId: nat, actionId: nat, claim: Bytes, amount: nat): Result<(Pool, Ledger.Store)>
  {
    if caller != p.controller then Err(NotController)
    else if invoiceId !in p.invoices then Err(InvoiceNotFound)
    else
      var invoice := p.invoices[invoiceId];
      if invoice.paid then Err(InvoiceAlreadyPaid)
      else if invoice.amount != amount || invoice.claim != claim then Err(InvoiceMismatch)
      else
        var t' :- Ledger.Transfer(t, self, invoice.vendor, amount);
        var p1 :=
          if claim in p.paidClaims then p.(actionDup := p.actionDup + {actionId})
          else p.(paidClaims := p.paidClaims[claim := actionId]);
        Ok((p1.(invoices := p1.invoices[invoiceId := invoice.(paid := true)]), t'))
  }

  function AddToReserve(p: Pool, caller: Address, amount: nat): Result<Pool> {
    if caller != p.controller then Err(NotController)
    else Ok(p.(reserve := p.reserve + amount))
  }

  // ---- BondsmanController ---------------------------------------------------------------------

  function PointPool(c: Controller, caller: Address, pool: Address): Result<Controller> {
    if caller != c.owner then Err(NotOwner)
    else if c.poolFinalized then Err(PoolFinalized)
    else Ok(c.(pool := pool, poolFinalized := true))
  }

  function Initiate(c: Controller, caller: Address, invoiceId: nat, claim: Bytes, amount: nat, reasoning: Bytes): Controller {
    var a := Action(caller, invoiceId, claim, amount, reasoning, BondRequired(amount, c.RepOf(caller).score), 0, 0,
                    Suite.Initiated, None);
    c.(actions := c.actions[c.nextId := a], nextId := c.nextId + 1)
  }

  function ActionForAgent(c: Controller, caller: Address, id: nat): Result<Action> {
    if id !in c.actions then Err(ActionNotFound)
    else if caller != c.actions[id].agent then Err(NotAgent)
    else Ok(c.actions[id])
  }

  function Set(w: World, id: nat, a: Action): World {
    w.(ctrl := w.ctrl.(actions := w.ctrl.actions[id := a]))
  }

  function Post(net: Suite.Net, w: World, caller: Address, id: nat): Result<World> {
    var a :- ActionForAgent(w.ctrl, caller, id);
    if a.status != Suite.Initiated then Err(InvalidStatus)
    else
      var (v, t) :- Vault.DepositAndLock(net.vault, w.vault, w.token, net.controller, id, a.agent, a.bondRequired);
      Ok(Set(w.(token := t, vault := v), id, a.(bondPosted := a.bondRequired, status := Suite.Bonded)))
  }

  function Execute(net: Suite.Net, w: World, caller: Address, id: nat, now: nat): Result<World> {
    var a :- ActionForAgent(w.ctrl, caller, id);
    if a.bondPosted < a.bondRequired then Err(InsufficientBond)
    else if a.status != Suite.Bonded then Err(InvalidStatus)
    else
      var (p, t) :- Payout(net.pool, w.pool, w.token, net.controller, a.invoiceId, id, a.claim, a.amount);
      Ok(Set(w.(token := t, pool := p), id, a.(windowEnd := now + w.ctrl.windowSecs * 1_000, status := Suite.Executed)))
  }

  function Challenge(w: World, caller: Address, id: nat, now: nat): Result<World> {
    if id !in w.ctrl.actions then Err(ActionNotFound)
    else
      var a := w.ctrl.actions[id];
      if a.status != Suite.Executed then Err(InvalidStatus)
      else if now > a.windowEnd then Err(ChallengeWindowClosed)
      else if id !in w.pool.actionDup then Err(NotDuplicate)
      else Ok(Set(w, id, a.(challenger := Some(caller), status := Suite.Challenged)))
  }

  function Slash(net: Suite.Net, w: World, id: nat, a: Action): Result<World> {
    if a.challenger.None? then Err(InvalidStatus)
    else
      var reward := Vault.ChallengerShare(a.bondPosted, w.ctrl.challengerBps);
      if reward > a.bondPosted then Err(ArithmeticUnderflow)
      else
        var (v, t) :- Vault.Slash(net.vault, w.vault, w.token, net.controller, id, a.challenger.value,
                                  w.ctrl.pool, w.ctrl.challengerBps);
        var p :- AddToReserve(w.pool, net.controller, a.bondPosted - reward);
        var rep := w.ctrl.RepOf(a.agent);
        var c := w.ctrl.(reputation := w.ctrl.reputation[a.agent := Suite.Rep(rep.clean, rep.slashed + 1, rep.score - 50)]);
        Ok(Set(World(t, v, p, c), id, a.(status := Suite.ResolvedSlash)))
  }

  function Refund(net: Suite.Net, w: World, id: nat, a: Action, now: nat): Result<World> {
    if now <= a.windowEnd then Err(WindowStillOpen)
    else
      var (v, t) :- Vault.Release(net.vault, w.vault, w.token, net.controller, id);
      var rep := w.ctrl.RepOf(a.agent);
      var c := w.ctrl.(reputation := w.ctrl.reputation[a.agent := Suite.Rep(rep.clean + 1, rep.slashed, rep.score + 10)]);
      Ok(Set(World(t, v, w.pool, c), id, a.(status := Suite.ResolvedRefund)))
  }

  function Resolve(net: Suite.Net, w: World, id: nat, now: nat): Result<World> {
    if id !in w.ctrl.actions then Err(ActionNotFound)
    else
      var a := w.ctrl.actions[id];
      match a.status
      case Challenged => Slash(net, w, id, a)
      case Executed => Refund(net, w, id, a, now)
      case _ => Err(InvalidStatus)
  }

  // ---- Transactions ---------------------------------------------------------------------------

  datatype Call =
    | Token(call: Suite.TokenCall)
    | VaultSetController(controller: Address)
    | VaultDeposit(id: nat, agent: Address, amount: nat)
    | VaultRelease(id: nat)
    | VaultSlash(id: nat, challenger: Address, pool: Address, bps: nat)
    | PoolPayout(invoiceId: nat, id: nat, claim: Bytes, amount: nat)
    | PoolAddToReserve(amount: nat)
    | SubmitInvoice(invoiceId: nat, amount: nat, vendor: Address, claim: Bytes)
    | SetPool(newPool: Address)
    | InitiateAction(invoiceId: nat, claim: Bytes, amount: nat, reasoning: Bytes)
    | PostBond(id: nat)
    | ExecuteAction(id: nat)
    | ChallengeAction(id: nat)
    | ResolveAction(id: nat)
  {
    /** Entry points of the vault and the pool that only their owner or controller may use. */
    predicate IsGuarded() {
      VaultSetController? || VaultDeposit? || VaultRelease? || VaultSlash? || PoolPayout? || PoolAddToReserve?
    }
  }

  datatype Tx = Tx(caller: Address, now: nat, call: Call)

  function WithVault(w: World, r: Result<(Vault.Store, Ledger.Store)>): Result<World> {
    var (v, t) :- r;
    Ok(w.(vault := v, token := t))
  }

  function Apply(net: Suite.Net, w: World, tx: Tx): Result<World> {
    match tx.call
    case Token(call) => (var t :- Suite.CallToken(w.token, tx.caller, call); Ok(w.(token := t)))
    case VaultSetController(c) => (var v :- Vault.SetController(w.vault, tx.caller, c); Ok(w.(vault := v)))
    case VaultDeposit(id, agent, amount) =>
      WithVault(w, Vault.DepositAndLock(net.vault, w.vault, w.token, tx.caller, id, agent, amount))
    case VaultRelease(id) => WithVault(w, Vault.Release(net.vault, w.vault, w.token, tx.caller, id))
    case VaultSlash(id, challenger, pool, bps) =>
      WithVault(w, Vault.Slash(net.vault, w.vault, w.token, tx.caller, id, challenger, pool, bps))
    case PoolPayout(invoiceId, id, claim, amount) =>
      var (p, t) :- Payout(net.pool, w.pool, w.token, tx.caller, invoiceId, id, claim, amount);
      Ok(w.(pool := p, token := t))
    case PoolAddToReserve(amount) => (var p :- AddToReserve(w.pool, tx.caller, amount); Ok(w.(pool := p)))
    case SubmitInvoice(id, amount, vendor, claim) =>
      (var p :- AddInvoice(w.pool, tx.caller, id, amount, vendor, claim); Ok(w.(pool := p)))
    case SetPool(pool) => (var c :- PointPool(w.ctrl, tx.caller, pool); Ok(w.(ctrl := c)))
    case InitiateAction(invoiceId, claim, amount, reasoning) =>
      Ok(w.(ctrl := Initiate(w.ctrl, tx.caller, invoiceId, claim, amount, reasoning)))
    case PostBond(id) => Post(net, w, tx.caller, id)
    case ExecuteAction(id) => Execute(net, w, tx.caller, id, tx.now)
    case ChallengeAction(id) => Challenge(w, tx.caller, id, tx.now)
    case ResolveAction(id) => Resolve(net, w, id, tx.now)
  }

  /** One transaction: its effect, or nothing at all if it reverts. */
  function Next(net: Suite.Net, w: World, tx: Tx): World {
    match Apply(net, w, tx)
    case Ok(w') => w'
    case Err(_) => w
  }

  function Run(net: Suite.Net, w: World, txs: seq<Tx>): World
    decreases txs
  {
    if txs == [] then w
    else Run(net, Next(net, w, txs[0]), txs[1..])
  }
}
