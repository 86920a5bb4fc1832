// The wired state, and what each journal entry says happened to it. Every successful transaction is
// explained by its entry, so the invariants only ever look at these relations.
module Wiring {
  import opened Common
  import opened Suite
  import opened Journal
  import opened Pricing
  import Ledger
  import Vault
  import Pool
  import Delivery

  /** The vault and the pool at different addresses, pointed at the controller for good, and it at them, with genuine
      verifiers. Nothing is asked of the other addresses. */
  ghost predicate Wired(net: Net, w: World) {
    && net.vault != net.pool
    && w.vault.controller == net.controller && w.vault.controllerFinalized
    && w.pool.controller == net.controller && w.pool.controllerFinalized
    && w.ctrl.pool == net.pool && w.ctrl.poolFinalized
    && w.ctrl.challengerBps <= 10_000
    && Genuine(net, w.ctrl.verifiers)
  }

  ghost predicate Genuine(net: Net, verifiers: map<string, Address>) {
    && DUPLICATE in verifiers && verifiers[DUPLICATE] == net.duplicateVerifier
    && DELIVERY in verifiers && verifiers[DELIVERY] == net.deliveryVerifier
  }

  /** Neither the vault nor the pool has ever let anyone spend for it. */
  ghost predicate NoAllowances(net: Net, t: Ledger.Store) {
    forall s :: t.Allowance(net.vault, s) == 0 && t.Allowance(net.pool, s) == 0
  }

  // ---- What the entries say -------------------------------------------------------------------

  ghost predicate SameMoney(net: Net, t: Ledger.Store, t': Ledger.Store) {
    t'.balances == t.balances && t'.supply == t.supply && NoAllowances(net, t')
  }

  /** Exactly `amount` went from `source` to `to`. */
  ghost predicate Shift(net: Net, t: Ledger.Store, t': Ledger.Store, source: Address, to: Address, amount: nat) {
    && source != to
    && t.Balance(source) >= amount
    && t'.supply == t.supply && NoAllowances(net, t')
    && Total(t'.balances) == Total(t.balances)
    && t'.Balance(source) == t.Balance(source) - amount
    && t'.Balance(to) == t.Balance(to) + amount
    && (forall a :: a != source && a != to ==> t'.Balance(a) == t.Balance(a))
  }

  ghost predicate NewMoney(net: Net, t: Ledger.Store, t': Ledger.Store, to: Address, amount: nat) {
    && t'.supply == t.supply + amount && NoAllowances(net, t')
    && Total(t'.balances) == Total(t.balances) + amount
    && t'.Balance(to) == t.Balance(to) + amount
    && (forall a :: a != to ==> t'.Balance(a) == t.Balance(a))
  }

  /** Invoices may be added, unpaid; those there keep every field. */
  ghost predicate MoreInvoices(p: Pool.Store, p': Pool.Store) {
    && p' == p.(invoices := p'.invoices)
    && (forall i :: i in p.invoices ==> i in p'.invoices && p'.invoices[i] == p.invoices[i])
    && (forall i :: i in p'.invoices && i !in p.invoices ==> !p'.invoices[i].paid)
  }

  ghost predicate Idle(net: Net, w: World, w': World) {
    && SameMoney(net, w.token, w'.token)
    && w'.vault == w.vault
    && MoreInvoices(w.pool, w'.pool)
    && w'.ctrl == w.ctrl.(verifiers := w'.ctrl.verifiers) && Genuine(net, w'.ctrl.verifiers)
    && w'.used == w.used
  }

  ghost predicate OnlyTokens(w: World, w': World) {
    w'.vault == w.vault && w'.pool == w.pool && w'.ctrl == w.ctrl && w'.used == w.used
  }

  ghost predicate Opens(w: World, w': World, id: nat, agent: Address, invoiceId: nat, claim: Bytes, amount: nat, reasoning: Bytes) {
    && id == w.ctrl.nextId
    && w'.token == w.token && w'.vault == w.vault && w'.pool == w.pool && w'.used == w.used
    && id in w'.ctrl.actions
    && (var a := w'.ctrl.actions[id];
        && a.agent == agent && a.invoiceId == invoiceId && a.claim == claim && a.amount == amount && a.reasoning == reasoning
        && a.status == Initiated && a.bondPosted == 0 && a.challenger.None?
        && a.bondRequired == BondRequired(amount, w.ctrl.RepOf(agent).score)
        && w'.ctrl == w.ctrl.Set(id, a).(nextId := id + 1))
  }

  ghost predicate Posts(net: Net, w: World, w': World, id: nat, agent: Address, amount: nat) {
    && id in w.ctrl.actions
    && (var a := w.ctrl.actions[id];
        && a.status == Initiated && agent == a.agent && amount == a.bondRequired
        && Shift(net, w.token, w'.token, agent, net.vault, amount)
        && w'.vault == w.vault.(bonds := w.vault.bonds[id := Vault.Bond(agent, amount, Vault.Locked)],
                                totalLocked := w.vault.totalLocked + amount)
        && w'.ctrl == w.ctrl.Set(id, a.(bondPosted := amount, status := Bonded)))
    && w'.pool == w.pool && w'.used == w.used
  }

  ghost predicate Pays(net: Net, w: World, w': World, now: nat, id: nat, invoiceId: nat, vendor: Address, claim: Bytes, amount: nat) {
    && id in w.ctrl.actions && invoiceId in w.pool.invoices
    && (var a := w.ctrl.actions[id];
        var i := w.pool.invoices[invoiceId];
        && a.status == Bonded && invoiceId == a.invoiceId && claim == a.claim == i.claim && amount == a.amount == i.amount
        && !i.paid && vendor == i.vendor
        && w'.ctrl == w.ctrl.Set(id, a.(windowEnd := now + w.ctrl.windowSecs * 1_000, status := Executed))
        && w'.pool == w.pool.(invoices := w.pool.invoices[invoiceId := i.(paid := true)],
                              paidClaims := w'.pool.paidClaims, actionDup := w'.pool.actionDup))
    && Shift(net, w.token, w'.token, net.pool, vendor, amount)
    && (if claim in w.pool.paidClaims
        then w'.pool.paidClaims == w.pool.paidClaims && w'.pool.actionDup == w.pool.actionDup + {id}
        else w'.pool.paidClaims == w.pool.paidClaims[claim := id] && w'.pool.actionDup == w.pool.actionDup)
    && w'.vault == w.vault && w'.used == w.used
  }

  /** What a verifier must have seen: a duplicate the pool flagged, or evidence that proves the fault. */
  ghost predicate Faulty(net: Net, p: Pool.Store, id: nat, invoiceId: nat, faultClass: string, evidence: Bytes, time: nat) {
    || (faultClass == DUPLICATE && id in p.actionDup)
    || (faultClass == DELIVERY && invoiceId in p.invoices
        && Delivery.Proves(net.ed, p.invoices[invoiceId], id, invoiceId, evidence, time))
  }

  ghost predicate Contests(net: Net, w: World, w': World, caller: Address, now: nat, id: nat, faultClass: string, evidence: Bytes) {
    && id in w.ctrl.actions
    && (var a := w.ctrl.actions[id];
        && a.status == Executed && now <= a.windowEnd
        && Faulty(net, w.pool, id, a.invoiceId, faultClass, evidence, now)
        && w'.ctrl == w.ctrl.Set(id, a.(challenger := Some(caller), status := Challenged,
                                        faultClass := faultClass, evidence := evidence)))
    && Spends(w, w', faultClass == DELIVERY, evidence)
    && w'.token == w.token && w'.vault == w.vault && w'.pool == w.pool
  }

  ghost predicate Spends(w: World, w': World, spent: bool, evidence: Bytes) {
    if spent then evidence !in w.used && w'.used == w.used + {evidence} else w'.used == w.used
  }

  ghost predicate Repays(net: Net, w: World, w': World, now: nat, id: nat, agent: Address, amount: nat) {
    && id in w.ctrl.actions && id in w.vault.bonds
    && (var a := w.ctrl.actions[id];
        && a.status == Executed && now > a.windowEnd && agent == a.agent
        && w.vault.bonds[id].status.Locked? && amount == w.vault.bonds[id].amount <= w.vault.totalLocked
        && Shift(net, w.token, w'.token, net.vault, w.vault.bonds[id].agent, amount)
        && w'.vault == w.vault.(bonds := w.vault.bonds[id := w.vault.bonds[id].(status := Vault.Released)],
                                totalLocked := w.vault.totalLocked - amount)
        && w'.ctrl == Scored(w.ctrl, agent, 1, 0).Set(id, a.(status := ResolvedRefund)))
    && w'.pool == w.pool && w'.used == w.used
  }

  function Scored(c: Controller, agent: Address, clean: nat, slashed: nat): Controller {
    var rep := c.RepOf(agent);
    c.SetRep(agent, Rep(rep.clean + clean, rep.slashed + slashed, rep.score + 10 * clean - 50 * slashed))
  }

  ghost predicate Slashes(net: Net, w: World, w': World, id: nat, agent: Address, challenger: Address, reward: nat, reserve: nat) {
    && id in w.ctrl.actions && id in w.vault.bonds
    && (var a := w.ctrl.actions[id];
        var bond := w.vault.bonds[id];
        && a.status == Challenged && agent == a.agent && a.challenger == Some(challenger)
        && bond.status.Locked? && reward + reserve == bond.amount <= w.vault.totalLocked
        && reward == Vault.ChallengerShare(bond.amount, w.ctrl.challengerBps) <= bond.amount
        && Vault.ChallengerShare(a.bondPosted, w.ctrl.challengerBps) <= a.bondPosted
        && w'.vault == w.vault.(bonds := w.vault.bonds[id := bond.(status := Vault.Slashed)],
                                totalLocked := w.vault.totalLocked - bond.amount)
        && w'.pool == w.pool.(reserve := w.pool.reserve + a.bondPosted
                                       - Vault.ChallengerShare(a.bondPosted, w.ctrl.challengerBps))
        && w'.ctrl == Scored(w.ctrl, agent, 0, 1).Set(id, a.(status := ResolvedSlash)))
    && (exists t :: Shift(net, w.token, t, net.vault, challenger, reward) && Shift(net, t, w'.token, net.vault, net.pool, reserve))
    && w'.used == w.used
  }

  /** What an entry by `caller` at time `now` says about the step from `w` to `w'`. */
  ghost predicate Explains(net: Net, w: World, w': World, e: Entry) {
    && w'.now == e.time >= w.now
    && e.caller !in net.Contracts()
    && match e.event
       case Quiet => Idle(net, w, w')
       case Minted(to, amount) => NewMoney(net, w.token, w'.token, to, amount) && OnlyTokens(w, w')
       case Moved(source, to, amount) =>
         && Shift(net, w.token, w'.token, source, to, amount) && OnlyTokens(w, w')
         && (source == net.vault || source == net.pool ==> amount == 0)
       case Listed(_, _) => Idle(net, w, w')
       case Opened(id, agent, invoiceId, claim, amount, reasoning) =>
         agent == e.caller && Opens(w, w', id, agent, invoiceId, claim, amount, reasoning)
       case Posted(id, agent, amount) => agent == e.caller && Posts(net, w, w', id, agent, amount)
       case Paid(id, invoiceId, vendor, claim, amount) => Pays(net, w, w', e.time, id, invoiceId, vendor, claim, amount)
       case Contested(id, faultClass, evidence) => Contests(net, w, w', e.caller, e.time, id, faultClass, evidence)
       case Proven(evidence) =>
         && Spends(w, w', true, evidence)
         && w'.token == w.token && w'.vault == w.vault && w'.pool == w.pool && w'.ctrl == w.ctrl
       case Refunded(id, agent, amount) => Repays(net, w, w', e.time, id, agent, amount)
       case Slashed(id, agent, challenger, reward, reserve) => Slashes(net, w, w', id, agent, challenger, reward, reserve)
  }

  // ---- Every step is explained ----------------------------------------------------------------

  /** Every guarded entry point of the vault and the pool turns every outsider away. */
  lemma GuardsHold(net: Net, w: World, caller: Address, call: GuardedCall)
    requires Wired(net, w) && caller !in net.Contracts()
    ensures CallGuarded(net, w, caller, call).Err?
  {
    match call
    case VaultSetController(_) =>
    case VaultDeposit(_, _, _) =>
    case VaultRelease(_) =>
    case VaultSlash(_, _, _, _) =>
    case PoolSetController(_) =>
    case PoolPayout(_, _, _, _) =>
    case PoolAddToReserve(_) =>
  }

  lemma MoveShifts(net: Net, t: Ledger.Store, source: Address, to: Address, amount: nat)
    requires source != to && Ledger.Move(t, source, to, amount).Ok? && NoAllowances(net, t)
    ensures Shift(net, t, Ledger.Move(t, source, to, amount).value, source, to, amount)
  {
    Ledger.MoveConserves(t, source, to, amount);
    assert forall a, s :: Ledger.Move(t, source, to, amount).value.Allowance(a, s) == t.Allowance(a, s);
  }

  lemma TransferFromShifts(net: Net, t: Ledger.Store, caller: Address, holder: Address, to: Address, amount: nat)
    requires Ledger.TransferFrom(t, caller, holder, to, amount).Ok? && NoAllowances(net, t)
    ensures Shift(net, t, Ledger.TransferFrom(t, caller, holder, to, amount).value, holder, to, amount)
    ensures holder == net.vault || holder == net.pool ==> amount == 0
  {
    var spent := t.(allowances := t.allowances[(holder, caller) := t.Allowance(holder, caller) - amount]);
    assert holder == net.vault || holder == net.pool ==> t.Allowance(holder, caller) == 0;
    assert forall a, s :: (a, s) != (holder, caller) ==> spent.Allowance(a, s) == t.Allowance(a, s);
    MoveShifts(net, spent, holder, to, amount);
  }

  lemma TokenExplained(net: Net, t: Ledger.Store, t': Ledger.Store, caller: Address, call: TokenCall)
    requires NoAllowances(net, t) && caller != net.vault && caller != net.pool && CallToken(t, caller, call) == Ok(t')
    ensures match TokenEvent(caller, call)
            case Minted(to, amount) => NewMoney(net, t, t', to, amount)
            case Moved(source, to, amount) =>
              Shift(net, t, t', source, to, amount) && (source == net.vault || source == net.pool ==> amount == 0)
            case _ => SameMoney(net, t, t')
  {
    match call
    case Mint(to, amount) =>
      TotalUpdate(t.balances, to, t.Balance(to) + amount);
      assert forall a, s :: t'.Allowance(a, s) == t.Allowance(a, s);
    case Transfer(to, amount) => MoveShifts(net, t, caller, to, amount);
    case TransferFrom(holder, to, amount) => TransferFromShifts(net, t, caller, holder, to, amount);
    case _ => assert forall a, s :: a != caller ==> t'.Allowance(a, s) == t.Allowance(a, s);
  }

  lemma PostExplained(net: Net, w: World, w': World, caller: Address, id: nat)
    requires Wired(net, w) && NoAllowances(net, w.token) && Post(net, w, caller, id) == Ok(w')
    ensures Posts(net, w, w', id, caller, w.ctrl.actions[id].bondRequired)
  {
    TransferFromShifts(net, w.token, net.vault, caller, net.vault, w.ctrl.actions[id].bondRequired);
  }

  lemma ExecuteExplained(net: Net, w: World, w': World, caller: Address, id: nat, now: nat)
    requires Wired(net, w) && NoAllowances(net, w.token) && Execute(net, w, caller, id, now) == Ok(w')
    ensures var a := w.ctrl.actions[id];
            && a.invoiceId in w.pool.invoices
            && Pays(net, w, w', now, id, a.invoiceId, w.pool.invoices[a.invoiceId].vendor, a.claim, a.amount)
  {
    var a := w.ctrl.actions[id];
    MoveShifts(net, w.token, net.pool, w.pool.invoices[a.invoiceId].vendor, a.amount);
  }

  lemma ChallengeExplained(net: Net, w: World, w': World, caller: Address, id: nat, faultClass: string, evidence: Bytes, now: nat)
    requires Wired(net, w) && Challenge(net, w, caller, id, faultClass, evidence, now) == Ok(w')
    ensures Contests(net, w, w', caller, now, id, faultClass, evidence)
  {
  }

  lemma RefundExplained(net: Net, w: World, w': World, id: nat, now: nat)
    requires Wired(net, w) && NoAllowances(net, w.token) && id in w.ctrl.actions
    requires w.ctrl.actions[id].status == Executed && Refund(net, w, id, w.ctrl.actions[id], now) == Ok(w')
    ensures id in w.vault.bonds && Repays(net, w, w', now, id, w.ctrl.actions[id].agent, w.vault.bonds[id].amount)
  {
    var bond := w.vault.bonds[id];
    MoveShifts(net, w.token, net.vault, bond.agent, bond.amount);
  }

  lemma SlashExplained(net: Net, w: World, w': World, id: nat)
    requires Wired(net, w) && NoAllowances(net, w.token) && id in w.ctrl.actions
    requires w.ctrl.actions[id].status == Challenged && Slash(net, w, id, w.ctrl.actions[id]) == Ok(w')
    ensures id in w.vault.bonds && w.ctrl.actions[id].challenger.Some?
    ensures var bond := w.vault.bonds[id].amount;
            var reward := Vault.ChallengerShare(bond, w.ctrl.challengerBps);
            && reward <= bond
            && Slashes(net, w, w', id, w.ctrl.actions[id].agent, w.ctrl.actions[id].challenger.value, reward, bond - reward)
  {
    var a := w.ctrl.actions[id];
    var bond := w.vault.bonds[id];
    var reward := Vault.ChallengerShare(bond.amount, w.ctrl.challengerBps);
    Vault.ShareAtMostAll(bond.amount, w.ctrl.challengerBps);
    var t := Ledger.Transfer(w.token, net.vault, a.challenger.value, reward).value;
    MoveShifts(net, w.token, net.vault, a.challenger.value, reward);
    MoveShifts(net, t, net.vault, net.pool, bond.amount - reward);
  }

  lemma SettingExplained(net: Net, w: World, tx: Tx)
    requires Wired(net, w) && NoAllowances(net, w.token) && Admissible(net, w, tx) && Apply(net, w, tx).Ok?
    requires tx.call.SubmitInvoice? || tx.call.SetPool? || tx.call.RegisterVerifier?
    ensures Idle(net, w, Apply(net, w, tx).value)
  {
  }

  lemma VerifyExplained(net: Net, w: World, tx: Tx)
    requires NoAllowances(net, w.token) && Genuine(net, w.ctrl.verifiers) && tx.call.VerifyDelivery? && Apply(net, w, tx).Ok?
    ensures Apply(net, w, tx).value == w || Spends(w, Apply(net, w, tx).value, true, tx.call.evidence)
    ensures Apply(net, w, tx).value == w.(used := Apply(net, w, tx).value.used)
  {
  }

  lemma InitiateExplained(w: World, caller: Address, invoiceId: nat, claim: Bytes, amount: nat, reasoning: Bytes)
    ensures Opens(w, w.(ctrl := Initiate(w.ctrl, caller, invoiceId, claim, amount, reasoning)),
                  w.ctrl.nextId, caller, invoiceId, claim, amount, reasoning)
  {
  }

  lemma ResolveExplained(net: Net, w: World, tx: Tx)
    requires Wired(net, w) && NoAllowances(net, w.token) && Admissible(net, w, tx) && Apply(net, w, tx).Ok?
    requires tx.call.ResolveAction?
    ensures Explains(net, w, Next(net, w, tx), Entry(tx.caller, tx.now, EventOf(net, w, tx)))
  {
    var w', id := Apply(net, w, tx).value, tx.call.id;
    if w.ctrl.actions[id].status == Executed { RefundExplained(net, w, w', id, tx.now); } else { SlashExplained(net, w, w', id); }
  }

  /** Every successful transaction from a wired state is explained by its journal entry. */
  lemma StepExplained(net: Net, w: World, tx: Tx)
    requires Wired(net, w) && NoAllowances(net, w.token) && Admissible(net, w, tx) && Apply(net, w, tx).Ok?
    ensures Explains(net, w, Next(net, w, tx), Entry(tx.caller, tx.now, EventOf(net, w, tx)))
  {
    var w' := Apply(net, w, tx).value;
    match tx.call
    case Token(call) => TokenExplained(net, w.token, w'.token, tx.caller, call);
    case Guarded(call) => GuardsHold(net, w, tx.caller, call);
    case PostBond(id) => PostExplained(net, w, w', tx.caller, id);
    case ExecuteAction(id) => ExecuteExplained(net, w, w', tx.caller, id, tx.now);
    case ChallengeAction(id, faultClass, evidence) => ChallengeExplained(net, w, w', tx.caller, id, faultClass, evidence, tx.now);
    case ResolveAction(_) => ResolveExplained(net, w, tx);
    case VerifyDelivery(_, _, _, _, _) => VerifyExplained(net, w, tx);
    case InitiateAction(invoiceId, claim, amount, reasoning) =>
      InitiateExplained(w, tx.caller, invoiceId, claim, amount, reasoning);
    case _ => SettingExplained(net, w, tx);
  }

  lemma ExplainedKeepsWired(net: Net, w: World, w': World, e: Entry)
    requires Wired(net, w) && NoAllowances(net, w.token) && Explains(net, w, w', e)
    ensures Wired(net, w') && NoAllowances(net, w'.token)
    ensures w'.ctrl.challengerBps == w.ctrl.challengerBps && w'.ctrl.windowSecs == w.ctrl.windowSecs
  {
    match e.event
    case Quiet =>
    case Listed(_, _) =>
    case Paid(_, _, _, _, _) =>
    case _ =>
  }

  // ---- The ladder an action climbs ------------------------------------------------------------

  /** The entries that move an action on. */
  predicate Lifecycle(e: Event) {
    e.Posted? || e.Paid? || e.Contested? || e.Refunded? || e.Slashed?
  }

  function StatusBefore(e: Event): Status
    requires Lifecycle(e)
  {
    match e
    case Posted(_, _, _) => Initiated
    case Paid(_, _, _, _, _) => Bonded
    case Slashed(_, _, _, _, _) => Challenged
    case _ => Executed
  }

  function StatusAfter(e: Event): Status
    requires Lifecycle(e)
  {
    match e
    case Posted(_, _, _) => Bonded
    case Paid(_, _, _, _, _) => Executed
    case Contested(_, _, _) => Challenged
    case Slashed(_, _, _, _, _) => ResolvedSlash
    case _ => ResolvedRefund
  }

  /** The parts of an action fixed when it is initiated. */
  predicate SameTerms(a: Action, a': Action) {
    && a'.agent == a.agent && a'.invoiceId == a.invoiceId && a'.claim == a.claim && a'.amount == a.amount
    && a'.bondRequired == a.bondRequired && a'.reasoning == a.reasoning
  }

  /** What an entry does to the controller's actions: one opens, one climbs a rung, or none changes. */
  ghost predicate Turns(c: Controller, c': Controller, e: Event) {
    && c'.challengerBps == c.challengerBps && c'.windowSecs == c.windowSecs
    && if e.Opened? then
         && e.id == c.nextId && c'.nextId == e.id + 1 && e.id in c'.actions
         && c'.actions == c.actions[e.id := c'.actions[e.id]]
         && c'.actions[e.id].status.Initiated?
       else if Lifecycle(e) then
         && e.id in c.actions && e.id in c'.actions && c'.nextId == c.nextId
         && c'.actions == c.actions[e.id := c'.actions[e.id]]
         && SameTerms(c.actions[e.id], c'.actions[e.id])
         && (!e.Paid? ==> c'.actions[e.id].windowEnd == c.actions[e.id].windowEnd)
         && c.actions[e.id].status == StatusBefore(e) && c'.actions[e.id].status == StatusAfter(e)
       else c'.actions == c.actions && c'.nextId == c.nextId
  }

  lemma StepTurns(net: Net, w: World, w': World, e: Entry)
    requires Explains(net, w, w', e)
    ensures Turns(w.ctrl, w'.ctrl, e.event)
  {
    match e.event
    case Opened(_, _, _, _, _, _) =>
    case Slashed(_, _, _, _, _) =>
    case Refunded(_, _, _) =>
    case _ =>
  }

  /** The pool never forgets: invoice terms are fixed, `paid` flips once, duplicates stay flagged. */
  ghost predicate Remembers(p: Pool.Store, p': Pool.Store) {
    && (forall i :: i in p.invoices ==> i in p'.invoices && p'.invoices[i].(paid := p.invoices[i].paid) == p.invoices[i])
    && (forall i :: i in p.invoices && p.invoices[i].paid ==> p'.invoices[i].paid)
    && p.actionDup <= p'.actionDup
  }

  lemma StepRemembers(net: Net, w: World, w': World, e: Entry)
    requires Explains(net, w, w', e)
    ensures Remembers(w.pool, w'.pool)
  {
    match e.event
    case Paid(_, _, _, _, _) =>
    case _ =>
  }
}
