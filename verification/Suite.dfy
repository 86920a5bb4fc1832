// The wired V2 suite as one state: the controller's entry points over all four contracts, and
// the transactions anyone may send. A transaction that reverts changes nothing but the clock.
module Suite {
  import opened Common
  import opened Pricing
  import Ledger
  import Vault
  import Pool
  import Delivery

  datatype Status = Initiated | Bonded | Executed | Challenged | ResolvedSlash | ResolvedRefund

  datatype Action = Action(
    agent: Address,
    invoiceId: nat,
    claim: Bytes,
    amount: nat,
    reasoning: Bytes,
    bondRequired: nat,
    bondPosted: nat,
    windowEnd: nat,
    status: Status,
    challenger: Option<Address>,
    faultClass: string,
    evidence: Bytes)

  datatype Rep = Rep(clean: nat, slashed: nat, score: int)

  datatype Controller = Controller(
    owner: Address,
    pool: Address,
    poolFinalized: bool,
    nextId: nat,
    actions: map<nat, Action>,
    reputation: map<Address, Rep>,
    windowSecs: nat,
    challengerBps: nat,
    verifiers: map<string, Address>)
  {
    function RepOf(agent: Address): Rep {
      if agent in reputation then reputation[agent] else Rep(0, 0, 0)
    }

    function Set(id: nat, a: Action): Controller {
      this.(actions := actions[id := a])
    }

    function SetRep(agent: Address, rep: Rep): Controller {
      this.(reputation := reputation[agent := rep])
    }
  }

  /** Where the contracts live, and the signature scheme of the host. */
  datatype Net = Net(
    token: Address,
    vault: Address,
    pool: Address,
    controller: Address,
    duplicateVerifier: Address,
    deliveryVerifier: Address,
    ed: Delivery.Ed25519)
  {
    function Contracts(): set<Address> {
      {token, vault, pool, controller, duplicateVerifier, deliveryVerifier}
    }
  }

  datatype World = World(
    token: Ledger.Store,
    vault: Vault.Store,
    pool: Pool.Store,
    ctrl: Controller,
    used: set<Bytes>,
    now: nat)

  const DUPLICATE: string := "duplicate_claim"
  const DELIVERY: string := "delivery_contradiction"

  // ---- BondsmanControllerV2 -------------------------------------------------------------------

  function PointPool(c: Controller, caller: Address, pool: Address): Result<Controller> {
    if caller != c.owner then Err(NotOwner)
    else if c.poolFinalized then Err(PoolFinalized)
    else Ok(c.(pool := pool, poolFinalized := true))
  }

  function AddVerifier(c: Controller, caller: Address, faultClass: string, verifier: Address): Result<Controller> {
    if caller != c.owner then Err(NotOwner)
    else Ok(c.(verifiers := c.verifiers[faultClass := verifier]))
  }

  function NewAction(c: Controller, caller: Address, invoiceId: nat, claim: Bytes, amount: nat, reasoning: Bytes): Action {
    Action(caller, invoiceId, claim, amount, reasoning, BondRequired(amount, c.RepOf(caller).score), 0, 0,
           Initiated, None, "", [])
  }

  function Initiate(c: Controller, caller: Address, invoiceId: nat, claim: Bytes, amount: nat, reasoning: Bytes): Controller {
    c.Set(c.nextId, NewAction(c, caller, invoiceId, claim, amount, reasoning)).(nextId := c.nextId + 1)
  }

  function AgentAction(c: Controller, caller: Address, id: nat): Result<Action> {
    if id !in c.actions then Err(ActionNotFound)
    else if caller != c.actions[id].agent then Err(NotAgent)
    else Ok(c.actions[id])
  }

  function Post(net: Net, w: World, caller: Address, id: nat): Result<World> {
    var a :- AgentAction(w.ctrl, caller, id);
    if a.status != Initiated then Err(InvalidStatus)
    else
      var (v, t) :- Vault.DepositAndLock(net.vault, w.vault, w.token, net.controller, id, a.agent, a.bondRequired);
      Ok(w.(token := t, vault := v, ctrl := w.ctrl.Set(id, a.(bondPosted := a.bondRequired, status := Bonded))))
  }

  function Execute(net: Net, w: World, caller: Address, id: nat, now: nat): Result<World> {
    var a :- AgentAction(w.ctrl, caller, id);
    if a.bondPosted < a.bondRequired then Err(InsufficientBond)
    else if a.status != Bonded then Err(InvalidStatus)
    else
      var (p, t) :- Pool.Payout(net.pool, w.pool, w.token, net.controller, a.invoiceId, id, a.claim, a.amount);
      Ok(w.(token := t, pool := p,
            ctrl := w.ctrl.Set(id, a.(windowEnd := now + w.ctrl.windowSecs * 1_000, status := Executed))))
  }

  /** The verifier call of a challenge: the verdict, and the evidence spent so far. */
  function Confirm(net: Net, w: World, id: nat, a: Action, faultClass: string, evidence: Bytes, now: nat)
    : Result<(bool, set<Bytes>)>
  {
    if faultClass == DUPLICATE then Ok((id in w.pool.actionDup, w.used))
    else if faultClass == DELIVERY then
      Delivery.Verify(net.ed, Pool.GetInvoice(w.pool, a.invoiceId), w.used, id, a.invoiceId, evidence, now)
    else Ok((false, w.used))
  }

  function Challenge(net: Net, w: World, caller: Address, id: nat, faultClass: string, evidence: Bytes, now: nat): Result<World> {
    if id !in w.ctrl.actions then Err(ActionNotFound)
    else
      var a := w.ctrl.actions[id];
      if a.status != Executed then Err(InvalidStatus)
      else if now > a.windowEnd then Err(ChallengeWindowClosed)
      else if faultClass !in w.ctrl.verifiers then Err(UnregisteredVerifier)
      else
        var (confirmed, used) :- Confirm(net, w, id, a, faultClass, evidence, now);
        if !confirmed then Err(FaultNotConfirmed)
        else Ok(w.(used := used, ctrl := w.ctrl.Set(id, a.(challenger := Some(caller), status := Challenged,
                                                            faultClass := faultClass, evidence := evidence))))
  }

  function Slash(net: Net, w: World, id: nat, a: Action): Result<World> {
    if a.challenger.None? then Err(InvalidStatus)
    else
      var reward := Vault.ChallengerShare(a.bondPosted, w.ctrl.challengerBps);
      if reward > a.bondPosted then Err(ArithmeticUnderflow)
      else
        var (v, t) :- Vault.Slash(net.vault, w.vault, w.token, net.controller, id, a.challenger.value,
                                  w.ctrl.pool, w.ctrl.challengerBps);
        var p :- Pool.AddToReserve(w.pool, net.controller, a.bondPosted - reward);
        var rep := w.ctrl.RepOf(a.agent);
        var c := w.ctrl.SetRep(a.agent, Rep(rep.clean, rep.slashed + 1, rep.score - 50));
        Ok(w.(token := t, vault := v, pool := p, ctrl := c.Set(id, a.(status := ResolvedSlash))))
  }

  function Refund(net: Net, w: World, id: nat, a: Action, now: nat): Result<World> {
    if now <= a.windowEnd then Err(WindowStillOpen)
    else
      var (v, t) :- Vault.Release(net.vault, w.vault, w.token, net.controller, id);
      var rep := w.ctrl.RepOf(a.agent);
      var c := w.ctrl.SetRep(a.agent, Rep(rep.clean + 1, rep.slashed, rep.score + 10));
      Ok(w.(token := t, vault := v, ctrl := c.Set(id, a.(status := ResolvedRefund))))
  }

  function Resolve(net: Net, w: World, id: nat, now: nat): Result<World> {
    if id !in w.ctrl.actions then Err(ActionNotFound)
    else
      var a := w.ctrl.actions[id];
      match a.status
      case Challenged => Slash(net, w, id, a)
      case Executed => Refund(net, w, id, a, now)
      case _ => Err(InvalidStatus)
  }

  // ---- Transactions ---------------------------------------------------------------------------

  datatype TokenCall =
    | Mint(to: Address, amount: nat)
    | Approve(spender: Address, amount: nat)
    | IncreaseAllowance(spender: Address, amount: nat)
    | DecreaseAllowance(spender: Address, amount: nat)
    | Transfer(to: Address, amount: nat)
    | TransferFrom(holder: Address, to: Address, amount: nat)

  /** Entry points of the vault and the pool that only their owner or controller may use. */
  datatype GuardedCall =
    | VaultSetController(controller: Address)
    | VaultDeposit(id: nat, agent: Address, amount: nat)
    | VaultRelease(id: nat)
    | VaultSlash(id: nat, challenger: Address, pool: Address, bps: nat)
    | PoolSetController(controller: Address)
    | PoolPayout(invoiceId: nat, id: nat, claim: Bytes, amount: nat)
    | PoolAddToReserve(amount: nat)

  datatype Call =
    | Token(call: TokenCall)
    | Guarded(guarded: GuardedCall)
    | SubmitInvoice(invoiceId: nat, terms: Pool.Invoice)
    /** A direct call of the delivery verifier. `answer` is what a pool outside the suite would report. */
    | VerifyDelivery(pool: Address, answer: Option<Pool.Invoice>, id: nat, invoiceId: nat, evidence: Bytes)
    | SetPool(newPool: Address)
    | RegisterVerifier(faultClass: string, verifier: Address)
    | InitiateAction(invoiceId: nat, claim: Bytes, amount: nat, reasoning: Bytes)
    | PostBond(id: nat)
    | ExecuteAction(id: nat)
    | ChallengeAction(id: nat, faultClass: string, evidence: Bytes)
    | ResolveAction(id: nat)

  datatype Tx = Tx(caller: Address, now: nat, call: Call)

  function CallToken(t: Ledger.Store, caller: Address, call: TokenCall): Result<Ledger.Store> {
    match call
    case Mint(to, amount) => Ledger.Mint(t, caller, to, amount)
    case Approve(spender, amount) => Ledger.Allow(t, caller, spender, amount)
    case IncreaseAllowance(spender, more) => Ledger.Allow(t, caller, spender, t.Allowance(caller, spender) + more)
    case DecreaseAllowance(spender, less) =>
      var left := t.Allowance(caller, spender);
      Ledger.Allow(t, caller, spender, if less < left then left - less else 0)
    case Transfer(to, amount) => Ledger.Transfer(t, caller, to, amount)
    case TransferFrom(holder, to, amount) => Ledger.TransferFrom(t, caller, holder, to, amount)
  }

  function WithVault(w: World, r: Result<(Vault.Store, Ledger.Store)>): Result<World> {
    var (v, t) :- r;
    Ok(w.(vault := v, token := t))
  }

  function WithPool(w: World, r: Result<Pool.Store>): Result<World> {
    var p :- r;
    Ok(w.(pool := p))
  }

  function WithCtrl(w: World, r: Result<Controller>): Result<World> {
    var c :- r;
    Ok(w.(ctrl := c))
  }

  function CallGuarded(net: Net, w: World, caller: Address, call: GuardedCall): Result<World> {
    match call
    case VaultSetController(c) => (var v :- Vault.SetController(w.vault, caller, c); Ok(w.(vault := v)))
    case VaultDeposit(id, agent, amount) =>
      WithVault(w, Vault.DepositAndLock(net.vault, w.vault, w.token, caller, id, agent, amount))
    case VaultRelease(id) => WithVault(w, Vault.Release(net.vault, w.vault, w.token, caller, id))
    case VaultSlash(id, challenger, pool, bps) =>
      WithVault(w, Vault.Slash(net.vault, w.vault, w.token, caller, id, challenger, pool, bps))
    case PoolSetController(c) => WithPool(w, Pool.SetController(w.pool, caller, c))
    case PoolPayout(invoiceId, id, claim, amount) =>
      var (p, t) :- Pool.Payout(net.pool, w.pool, w.token, caller, invoiceId, id, claim, amount);
      Ok(w.(pool := p, token := t))
    case PoolAddToReserve(amount) => WithPool(w, Pool.AddToReserve(w.pool, caller, amount))
  }

  /** A direct call asks the pool it names, which need not be ours. */
  function CheckDelivery(net: Net, w: World, pool: Address, answer: Option<Pool.Invoice>,
                         id: nat, invoiceId: nat, evidence: Bytes, now: nat): Result<World>
  {
    var invoice := if pool == net.pool then Pool.GetInvoice(w.pool, invoiceId) else answer;
    var (_, used) :- Delivery.Verify(net.ed, invoice, w.used, id, invoiceId, evidence, now);
    Ok(w.(used := used))
  }

  function Apply(net: Net, w: World, tx: Tx): Result<World> {
    match tx.call
    case Token(call) => (var t :- CallToken(w.token, tx.caller, call); Ok(w.(token := t)))
    case Guarded(call) => CallGuarded(net, w, tx.caller, call)
    case SubmitInvoice(id, terms) => WithPool(w, Pool.SubmitInvoice(w.pool, tx.caller, id, terms))
    case VerifyDelivery(pool, answer, id, invoiceId, evidence) =>
      CheckDelivery(net, w, pool, answer, id, invoiceId, evidence, tx.now)
    case SetPool(pool) => WithCtrl(w, PointPool(w.ctrl, tx.caller, pool))
    case RegisterVerifier(faultClass, verifier) =>
      WithCtrl(w, AddVerifier(w.ctrl, tx.caller, faultClass, verifier))
    case InitiateAction(invoiceId, claim, amount, reasoning) =>
      Ok(w.(ctrl := Initiate(w.ctrl, tx.caller, invoiceId, claim, amount, reasoning)))
    case PostBond(id) => Post(net, w, tx.caller, id)
    case ExecuteAction(id) => Execute(net, w, tx.caller, id, tx.now)
    case ChallengeAction(id, faultClass, evidence) => Challenge(net, w, tx.caller, id, faultClass, evidence, tx.now)
    case ResolveAction(id) => Resolve(net, w, id, tx.now)
  }

  /** One transaction: its effect, or nothing at all if it reverts. */
  function Next(net: Net, w: World, tx: Tx): World {
    (match Apply(net, w, tx) case Ok(w') => w' case Err(_) => w).(now := tx.now)
  }
}
