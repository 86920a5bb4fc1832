// Forgetting what V2 added, every V2 step on duplicate claims is the V1 step.
module Simulation {
  import opened Common
  import opened Suite
  import opened Journal
  import opened Wiring
  import opened Reachable
  import Pool
  import Vault
  import Ledger
  import V1

  // ---- Forgetting -----------------------------------------------------------------------------

  function ForgetInvoice(i: Pool.Invoice): V1.Invoice {
    V1.Invoice(i.amount, i.vendor, i.claim, i.paid)
  }

  function ForgetPool(p: Pool.Store): V1.Pool {
    V1.Pool(p.owner, p.controller, map i | i in p.invoices :: ForgetInvoice(p.invoices[i]), p.paidClaims, p.actionDup, p.reserve)
  }

  function ForgetAction(a: Action): V1.Action {
    V1.Action(a.agent, a.invoiceId, a.claim, a.amount, a.reasoning, a.bondRequired, a.bondPosted, a.windowEnd,
              a.status, a.challenger)
  }

  function ForgetController(c: Controller): V1.Controller {
    V1.Controller(c.owner, c.pool, c.poolFinalized, c.nextId, map id | id in c.actions :: ForgetAction(c.actions[id]),
                  c.reputation, c.windowSecs, c.challengerBps)
  }

  function Forget(w: World): V1.World {
    V1.World(w.token, w.vault, ForgetPool(w.pool), ForgetController(w.ctrl))
  }

  function ForgetGuarded(call: GuardedCall): Option<V1.Call> {
    match call
    case VaultSetController(c) => Some(V1.VaultSetController(c))
    case VaultDeposit(id, agent, amount) => Some(V1.VaultDeposit(id, agent, amount))
    case VaultRelease(id) => Some(V1.VaultRelease(id))
    case VaultSlash(id, challenger, pool, bps) => Some(V1.VaultSlash(id, challenger, pool, bps))
    case PoolSetController(_) => None
    case PoolPayout(invoiceId, id, claim, amount) => Some(V1.PoolPayout(invoiceId, id, claim, amount))
    case PoolAddToReserve(amount) => Some(V1.PoolAddToReserve(amount))
  }

  /** The V1 call a V2 call stands for; None for the entry points V1 does not have. */
  function ForgetCall(call: Call): Option<V1.Call> {
    match call
    case Token(t) => Some(V1.Token(t))
    case Guarded(g) => ForgetGuarded(g)
    case SubmitInvoice(id, terms) => Some(V1.SubmitInvoice(id, terms.amount, terms.vendor, terms.claim))
    case VerifyDelivery(_, _, _, _, _) => None
    case SetPool(pool) => Some(V1.SetPool(pool))
    case RegisterVerifier(_, _) => None
    case InitiateAction(invoiceId, claim, amount, reasoning) => Some(V1.InitiateAction(invoiceId, claim, amount, reasoning))
    case PostBond(id) => Some(V1.PostBond(id))
    case ExecuteAction(id) => Some(V1.ExecuteAction(id))
    case ChallengeAction(id, _, _) => Some(V1.ChallengeAction(id))
    case ResolveAction(id) => Some(V1.ResolveAction(id))
  }

  function ForgetError(e: Error): Error {
    if e == FaultNotConfirmed then NotDuplicate else e
  }

  function ForgetResult(r: Result<World>): Result<V1.World> {
    match r
    case Ok(w) => Ok(Forget(w))
    case Err(e) => Err(ForgetError(e))
  }

  function ForgetTx(tx: Tx): seq<V1.Tx> {
    match ForgetCall(tx.call)
    case Some(call) => [V1.Tx(tx.caller, tx.now, call)]
    case None => []
  }

  function ForgetAll(txs: seq<Tx>): seq<V1.Tx> {
    if txs == [] then [] else ForgetTx(txs[0]) + ForgetAll(txs[1..])
  }

  /** V1 has one fault class: challenges are for duplicate claims. */
  predicate DuplicatesOnly(tx: Tx) {
    tx.call.ChallengeAction? ==> tx.call.faultClass == DUPLICATE
  }

  // ---- One step -------------------------------------------------------------------------------

  lemma SetForgets(c: Controller, id: nat, a: Action)
    ensures ForgetController(c.Set(id, a)).actions == ForgetController(c).actions[id := ForgetAction(a)]
  {
  }

  lemma GuardedSimulates(net: Net, w: World, caller: Address, now: nat, call: GuardedCall)
    requires Wired(net, w) && caller !in net.Contracts() && ForgetGuarded(call).Some?
    ensures V1.Apply(net, Forget(w), V1.Tx(caller, now, ForgetGuarded(call).value))
         == ForgetResult(CallGuarded(net, w, caller, call))
  {
    match call
    case VaultSetController(_) =>
    case VaultDeposit(_, _, _) =>
    case VaultRelease(_) =>
    case VaultSlash(_, _, _, _) =>
    case PoolPayout(_, _, _, _) =>
    case PoolAddToReserve(_) =>
  }

  lemma PostSimulates(net: Net, w: World, caller: Address, id: nat)
    ensures V1.Post(net, Forget(w), caller, id) == ForgetResult(Post(net, w, caller, id))
  {
    if id in w.ctrl.actions {
      var a := w.ctrl.actions[id];
      SetForgets(w.ctrl, id, a.(bondPosted := a.bondRequired, status := Bonded));
    }
  }

  lemma PayoutSimulates(net: Net, w: World, invoiceId: nat, id: nat, claim: Bytes, amount: nat)
    ensures V1.Payout(net.pool, ForgetPool(w.pool), w.token, net.controller, invoiceId, id, claim, amount)
         == match Pool.Payout(net.pool, w.pool, w.token, net.controller, invoiceId, id, claim, amount)
            case Ok((p, t)) => Ok((ForgetPool(p), t))
            case Err(e) => Err(e)
  {
    if invoiceId in w.pool.invoices {
      var paid := w.pool.invoices[invoiceId].(paid := true);
      assert ForgetPool(w.pool.(invoices := w.pool.invoices[invoiceId := paid])).invoices
          == ForgetPool(w.pool).invoices[invoiceId := ForgetInvoice(paid)];
    }
  }

  lemma ExecuteSimulates(net: Net, w: World, caller: Address, id: nat, now: nat)
    ensures V1.Execute(net, Forget(w), caller, id, now) == ForgetResult(Execute(net, w, caller, id, now))
  {
    if id in w.ctrl.actions {
      var a := w.ctrl.actions[id];
      PayoutSimulates(net, w, a.invoiceId, id, a.claim, a.amount);
      SetForgets(w.ctrl, id, a.(windowEnd := now + w.ctrl.windowSecs * 1_000, status := Executed));
    }
  }

  lemma ChallengeSimulates(net: Net, w: World, caller: Address, id: nat, evidence: Bytes, now: nat)
    requires DUPLICATE in w.ctrl.verifiers
    ensures V1.Challenge(Forget(w), caller, id, now) == ForgetResult(Challenge(net, w, caller, id, DUPLICATE, evidence, now))
  {
    if id in w.ctrl.actions {
      var a := w.ctrl.actions[id];
      SetForgets(w.ctrl, id, a.(challenger := Some(caller), status := Challenged, faultClass := DUPLICATE, evidence := evidence));
    }
  }

  lemma SlashSimulates(net: Net, w: World, id: nat, a: Action)
    ensures V1.Slash(net, Forget(w), id, ForgetAction(a)) == ForgetResult(Slash(net, w, id, a))
  {
    SetForgets(w.ctrl, id, a.(status := ResolvedSlash));
  }

  lemma RefundSimulates(net: Net, w: World, id: nat, a: Action, now: nat)
    ensures V1.Refund(net, Forget(w), id, ForgetAction(a), now) == ForgetResult(Refund(net, w, id, a, now))
  {
    SetForgets(w.ctrl, id, a.(status := ResolvedRefund));
  }

  lemma ResolveSimulates(net: Net, w: World, id: nat, now: nat)
    ensures V1.Resolve(net, Forget(w), id, now) == ForgetResult(Resolve(net, w, id, now))
  {
    if id in w.ctrl.actions {
      match w.ctrl.actions[id].status
      case Challenged => SlashSimulates(net, w, id, w.ctrl.actions[id]);
      case Executed => RefundSimulates(net, w, id, w.ctrl.actions[id], now);
      case _ =>
    }
  }

  /** A V2 call that V1 also has succeeds exactly when the V1 call does, with the same error or the same state. */
  lemma StepSimulates(net: Net, w: World, tx: Tx)
    requires Wired(net, w) && Admissible(net, w, tx) && DuplicatesOnly(tx) && ForgetCall(tx.call).Some?
    ensures V1.Apply(net, Forget(w), V1.Tx(tx.caller, tx.now, ForgetCall(tx.call).value)) == ForgetResult(Apply(net, w, tx))
  {
    match tx.call
    case Token(_) =>
    case Guarded(call) => GuardedSimulates(net, w, tx.caller, tx.now, call);
    case SubmitInvoice(id, terms) =>
      assert ForgetPool(w.pool.(invoices := w.pool.invoices[id := terms.(paid := false)])).invoices
          == ForgetPool(w.pool).invoices[id := ForgetInvoice(terms.(paid := false))];
    case SetPool(_) =>
    case InitiateAction(invoiceId, claim, amount, reasoning) =>
      SetForgets(w.ctrl, w.ctrl.nextId, NewAction(w.ctrl, tx.caller, invoiceId, claim, amount, reasoning));
    case PostBond(id) => PostSimulates(net, w, tx.caller, id);
    case ExecuteAction(id) => ExecuteSimulates(net, w, tx.caller, id, tx.now);
    case ChallengeAction(id, _, evidence) => ChallengeSimulates(net, w, tx.caller, id, evidence, tx.now);
    case ResolveAction(id) => ResolveSimulates(net, w, id, tx.now);
  }

  /** An entry point V1 does not have changes nothing V1 can see. */
  lemma NewEntryPointsStutter(net: Net, w: World, tx: Tx)
    requires Wired(net, w) && Admissible(net, w, tx) && ForgetCall(tx.call).None?
    ensures Forget(Next(net, w, tx)) == Forget(w)
  {
    if tx.call.Guarded? {
      GuardsHold(net, w, tx.caller, tx.call.guarded);
    }
  }

  // ---- Whole runs -----------------------------------------------------------------------------

  lemma StepRuns(net: Net, w: World, tx: Tx, rest: seq<V1.Tx>)
    requires Wired(net, w) && Admissible(net, w, tx) && DuplicatesOnly(tx)
    ensures V1.Run(net, Forget(w), ForgetTx(tx) + rest) == V1.Run(net, Forget(Next(net, w, tx)), rest)
  {
    match ForgetCall(tx.call)
    case None =>
      NewEntryPointsStutter(net, w, tx);
      assert ForgetTx(tx) + rest == rest;
    case Some(call) =>
      var one := V1.Tx(tx.caller, tx.now, call);
      StepSimulates(net, w, tx);
      assert ForgetTx(tx) + rest == [one] + rest && ([one] + rest)[1..] == rest;
  }

  /** V2 restricted to duplicate claims is V1, over every run from a wired state. */
  lemma {:induction false} RunSimulates(net: Net, h: History, txs: seq<Tx>)
    requires Wired(net, h.world) && NoAllowances(net, h.world.token)
    requires AdmissibleRun(net, h, txs) && forall tx :: tx in txs ==> DuplicatesOnly(tx)
    ensures Forget(Run(net, h, txs).world) == V1.Run(net, Forget(h.world), ForgetAll(txs))
    decreases txs
  {
    if txs != [] {
      var h' := Record(net, h, txs[0]);
      var success, e := StepCases(net, h.world, txs[0]);
      if success {
        ExplainedKeepsWired(net, h.world, h'.world, e);
      }
      StepRuns(net, h.world, txs[0], ForgetAll(txs[1..]));
      RunSimulates(net, h', txs[1..]);
    }
  }
}
