// Coupling, solvency and conservation: the four contracts' redundant copies of the money agree.
module Custody {
  import opened Common
  import opened Suite
  import opened Journal
  import opened Wiring
  import Vault

  ghost predicate Numbered(c: Controller) {
    forall i: nat :: i in c.actions <==> i < c.nextId
  }

  function BondStatusFor(s: Status): Vault.BondStatus
    requires !s.Initiated?
  {
    match s
    case ResolvedSlash => Vault.Slashed
    case ResolvedRefund => Vault.Released
    case _ => Vault.Locked
  }

  /** Controller and vault tell the same story of action `id`. */
  ghost predicate Agree(net: Net, a: Action, id: nat, bonds: map<nat, Vault.Bond>) {
    && a.agent !in net.Contracts()
    && (a.challenger.Some? ==> a.challenger.value !in net.Contracts())
    && (a.challenger.Some? <==> a.status.Challenged? || a.status.ResolvedSlash?)
    && a.bondPosted == (if a.status.Initiated? then 0 else a.bondRequired)
    && (id in bonds <==> !a.status.Initiated?)
    && (id in bonds ==> bonds[id] == Vault.Bond(a.agent, a.bondRequired, BondStatusFor(a.status)))
  }

  ghost predicate Coupled(net: Net, w: World) {
    && Numbered(w.ctrl)
    && (forall id :: id in w.vault.bonds ==> id in w.ctrl.actions)
    && (forall id :: id in w.ctrl.actions ==> Agree(net, w.ctrl.actions[id], id, w.vault.bonds))
  }

  /** Each contract's running counter and balance, against the actions and against the journal since `start`. */
  ghost predicate Solvent(net: Net, start: World, h: History)
    requires Numbered(h.world.ctrl)
  {
    var w := h.world;
    && w.vault.totalLocked == Tally(LockedBond, w.ctrl.actions, w.ctrl.nextId)
    && w.token.Balance(net.vault) == start.token.Balance(net.vault) + w.vault.totalLocked + Sum(Gifts(net.vault), h.journal)
    && w.token.Balance(net.pool) == start.token.Balance(net.pool) + Sum(Gifts(net.pool), h.journal)
                                    - Sum(Payouts, h.journal) + w.pool.reserve
  }

  /** Where every bond and every unit of the token went. */
  ghost predicate Conserved(start: World, h: History) {
    var w := h.world;
    && Sum(Deposits, h.journal)
       == w.vault.totalLocked + Sum(Refunds, h.journal) + Sum(Rewards, h.journal) + Sum(Reserves, h.journal)
    && w.pool.reserve == Sum(Reserves, h.journal)
    && w.token.supply == Total(w.token.balances) == start.token.supply + Sum(Minting, h.journal)
  }

  /** What left for the reserve and for the vendors is what the actions' own fields account for. */
  ghost predicate Accounted(h: History)
    requires Numbered(h.world.ctrl)
  {
    var c := h.world.ctrl;
    && Sum(Reserves, h.journal) == Tally(ReserveShare(c.challengerBps), c.actions, c.nextId)
    && Sum(Payouts, h.journal) == Tally(PaidOut, c.actions, c.nextId)
  }

  /** One action moved on: enough that its own copy in the vault moved with it. */
  lemma CoupledMove(net: Net, w: World, w': World, id: nat)
    requires Coupled(net, w) && id in w.ctrl.actions && id in w'.ctrl.actions
    requires w'.ctrl.actions == w.ctrl.actions[id := w'.ctrl.actions[id]] && w'.ctrl.nextId == w.ctrl.nextId
    requires forall j :: j != id ==> (j in w'.vault.bonds <==> j in w.vault.bonds)
    requires forall j :: j != id && j in w.vault.bonds ==> w'.vault.bonds[j] == w.vault.bonds[j]
    requires Agree(net, w'.ctrl.actions[id], id, w'.vault.bonds)
    ensures Coupled(net, w')
  {
  }

  lemma PostCoupled(net: Net, w: World, w': World, id: nat, agent: Address, amount: nat)
    requires Coupled(net, w) && Posts(net, w, w', id, agent, amount)
    ensures Coupled(net, w')
  {
    assert Agree(net, w.ctrl.actions[id], id, w.vault.bonds);
    CoupledMove(net, w, w', id);
  }

  lemma PayCoupled(net: Net, w: World, w': World, now: nat, id: nat, invoiceId: nat, vendor: Address, claim: Bytes, amount: nat)
    requires Coupled(net, w) && Pays(net, w, w', now, id, invoiceId, vendor, claim, amount)
    ensures Coupled(net, w')
  {
    assert Agree(net, w.ctrl.actions[id], id, w.vault.bonds);
    CoupledMove(net, w, w', id);
  }

  lemma ContestCoupled(net: Net, w: World, w': World, caller: Address, now: nat, id: nat, faultClass: string, evidence: Bytes)
    requires Coupled(net, w) && Contests(net, w, w', caller, now, id, faultClass, evidence) && caller !in net.Contracts()
    ensures Coupled(net, w')
  {
    assert Agree(net, w.ctrl.actions[id], id, w.vault.bonds);
    CoupledMove(net, w, w', id);
  }

  lemma RefundCoupled(net: Net, w: World, w': World, now: nat, id: nat, agent: Address, amount: nat)
    requires Coupled(net, w) && Repays(net, w, w', now, id, agent, amount)
    ensures Coupled(net, w')
  {
    assert Agree(net, w.ctrl.actions[id], id, w.vault.bonds);
    CoupledMove(net, w, w', id);
  }

  lemma SlashCoupled(net: Net, w: World, w': World, id: nat, agent: Address, challenger: Address, reward: nat, reserve: nat)
    requires Coupled(net, w) && Slashes(net, w, w', id, agent, challenger, reward, reserve)
    ensures Coupled(net, w')
  {
    assert Agree(net, w.ctrl.actions[id], id, w.vault.bonds);
    CoupledMove(net, w, w', id);
  }

  lemma StillCoupled(net: Net, w: World, w': World)
    requires Coupled(net, w) && w'.vault == w.vault
    requires w'.ctrl.actions == w.ctrl.actions && w'.ctrl.nextId == w.ctrl.nextId
    ensures Coupled(net, w')
  {
  }

  lemma StepKeepsCoupled(net: Net, w: World, w': World, e: Entry)
    requires Coupled(net, w) && Explains(net, w, w', e)
    ensures Coupled(net, w')
  {
    match e.event
    case Posted(id, agent, amount) => PostCoupled(net, w, w', id, agent, amount);
    case Paid(id, invoiceId, vendor, claim, amount) => PayCoupled(net, w, w', e.time, id, invoiceId, vendor, claim, amount);
    case Contested(id, faultClass, evidence) => ContestCoupled(net, w, w', e.caller, e.time, id, faultClass, evidence);
    case Refunded(id, agent, amount) => RefundCoupled(net, w, w', e.time, id, agent, amount);
    case Slashed(id, agent, challenger, reward, reserve) => SlashCoupled(net, w, w', id, agent, challenger, reward, reserve);
    case Opened(_, _, _, _, _, _) => OpenedCoupled(net, w, w', e.event);
    case _ => StillCoupled(net, w, w');
  }

  lemma OpenedCoupled(net: Net, w: World, w': World, e: Event)
    requires Coupled(net, w) && e.Opened? && e.agent !in net.Contracts()
    requires Opens(w, w', e.id, e.agent, e.invoiceId, e.claim, e.amount, e.reasoning)
    ensures Coupled(net, w')
  {
  }

  // ---- What one entry moves -------------------------------------------------------------------

  /** The counters and balances move by exactly what the entry says. */
  ghost predicate Balanced(net: Net, w: World, w': World, e: Event) {
    var locked := w'.vault.totalLocked - w.vault.totalLocked;
    && w'.token.Balance(net.vault) - w.token.Balance(net.vault) == locked + Amount(Gifts(net.vault), e)
    && w'.token.Balance(net.pool) - w.token.Balance(net.pool)
       == Amount(Gifts(net.pool), e) - Amount(Payouts, e) + Amount(Reserves, e)
    && w'.pool.reserve - w.pool.reserve == Amount(Reserves, e)
    && Amount(Deposits, e) == locked + Amount(Refunds, e) + Amount(Rewards, e) + Amount(Reserves, e)
    && w'.token.supply - w.token.supply == Total(w'.token.balances) - Total(w.token.balances) == Amount(Minting, e)
  }

  /** And so does the weight of the action that climbed. */
  ghost predicate Weighed(w: World, w': World, e: Event) {
    if Lifecycle(e) then
      && e.id in w.ctrl.actions && e.id in w'.ctrl.actions
      && (var a, a' := w.ctrl.actions[e.id], w'.ctrl.actions[e.id];
          && Weigh(LockedBond, a') - Weigh(LockedBond, a) == w'.vault.totalLocked - w.vault.totalLocked
          && Weigh(ReserveShare(w.ctrl.challengerBps), a') - Weigh(ReserveShare(w.ctrl.challengerBps), a) == Amount(Reserves, e)
          && Weigh(PaidOut, a') - Weigh(PaidOut, a) == Amount(Payouts, e))
    else w'.vault.totalLocked == w.vault.totalLocked
  }

  lemma PostBalanced(net: Net, w: World, w': World, id: nat, agent: Address, amount: nat)
    requires Wired(net, w) && Coupled(net, w) && Posts(net, w, w', id, agent, amount)
    ensures Balanced(net, w, w', Posted(id, agent, amount)) && Weighed(w, w', Posted(id, agent, amount))
  {
  }

  lemma PayBalanced(net: Net, w: World, w': World, now: nat, id: nat, invoiceId: nat, vendor: Address, claim: Bytes, amount: nat)
    requires Wired(net, w) && Coupled(net, w) && Pays(net, w, w', now, id, invoiceId, vendor, claim, amount)
    ensures Balanced(net, w, w', Paid(id, invoiceId, vendor, claim, amount)) && Weighed(w, w', Paid(id, invoiceId, vendor, claim, amount))
  {
  }

  lemma RefundBalanced(net: Net, w: World, w': World, now: nat, id: nat, agent: Address, amount: nat)
    requires Wired(net, w) && Coupled(net, w) && Repays(net, w, w', now, id, agent, amount)
    ensures Balanced(net, w, w', Refunded(id, agent, amount)) && Weighed(w, w', Refunded(id, agent, amount))
  {
  }

  lemma SlashBalanced(net: Net, w: World, w': World, id: nat, agent: Address, challenger: Address, reward: nat, reserve: nat)
    requires Wired(net, w) && Coupled(net, w) && Slashes(net, w, w', id, agent, challenger, reward, reserve)
    ensures Balanced(net, w, w', Slashed(id, agent, challenger, reward, reserve)) && Weighed(w, w', Slashed(id, agent, challenger, reward, reserve))
  {
  }

  lemma ContestBalanced(net: Net, w: World, w': World, caller: Address, now: nat, id: nat, faultClass: string, evidence: Bytes)
    requires Contests(net, w, w', caller, now, id, faultClass, evidence)
    ensures Balanced(net, w, w', Contested(id, faultClass, evidence)) && Weighed(w, w', Contested(id, faultClass, evidence))
  {
  }

  lemma MintBalanced(net: Net, w: World, w': World, to: Address, amount: nat)
    requires NewMoney(net, w.token, w'.token, to, amount) && OnlyTokens(w, w')
    ensures Balanced(net, w, w', Minted(to, amount)) && Weighed(w, w', Minted(to, amount))
  {
  }

  lemma MoveBalanced(net: Net, w: World, w': World, source: Address, to: Address, amount: nat)
    requires Wired(net, w) && Shift(net, w.token, w'.token, source, to, amount) && OnlyTokens(w, w')
    requires source == net.vault || source == net.pool ==> amount == 0
    ensures Balanced(net, w, w', Moved(source, to, amount)) && Weighed(w, w', Moved(source, to, amount))
  {
  }

  /** Entries that move no money. */
  lemma StillBalanced(net: Net, w: World, w': World, e: Event)
    requires e.Quiet? || e.Listed? || e.Opened? || e.Proven?
    requires w'.token.balances == w.token.balances && w'.token.supply == w.token.supply
    requires w'.vault == w.vault && w'.pool.reserve == w.pool.reserve
    ensures Balanced(net, w, w', e) && Weighed(w, w', e)
  {
  }

  lemma StepBalanced(net: Net, w: World, w': World, e: Entry)
    requires Wired(net, w) && Coupled(net, w) && Explains(net, w, w', e)
    ensures Balanced(net, w, w', e.event) && Weighed(w, w', e.event)
  {
    match e.event
    case Posted(id, agent, amount) => PostBalanced(net, w, w', id, agent, amount);
    case Paid(id, invoiceId, vendor, claim, amount) => PayBalanced(net, w, w', e.time, id, invoiceId, vendor, claim, amount);
    case Refunded(id, agent, amount) => RefundBalanced(net, w, w', e.time, id, agent, amount);
    case Slashed(id, agent, challenger, reward, reserve) => SlashBalanced(net, w, w', id, agent, challenger, reward, reserve);
    case Contested(id, faultClass, evidence) => ContestBalanced(net, w, w', e.caller, e.time, id, faultClass, evidence);
    case Minted(to, amount) => MintBalanced(net, w, w', to, amount);
    case Moved(source, to, amount) => MoveBalanced(net, w, w', source, to, amount);
    case Quiet => StillBalanced(net, w, w', e.event);
    case Listed(_, _) => StillBalanced(net, w, w', e.event);
    case Opened(_, _, _, _, _, _) => StillBalanced(net, w, w', e.event);
    case Proven(_) => StillBalanced(net, w, w', e.event);
  }

  /** A tally moves with the weight of the one action that changed. */
  lemma TallyMoves(m: Measure, c: Controller, c': Controller, e: Event)
    requires Numbered(c) && Turns(c, c', e)
    ensures Numbered(c')
    ensures Tally(m, c'.actions, c'.nextId) == Tally(m, c.actions, c.nextId)
         + (if Lifecycle(e) then Weigh(m, c'.actions[e.id]) - Weigh(m, c.actions[e.id]) else 0)
  {
    if e.Opened? || Lifecycle(e) {
      TallyUpdate(m, c.actions, c.nextId, e.id, c'.actions[e.id]);
    }
  }

  lemma StepKeepsSolvent(net: Net, start: World, h: History, w': World, e: Entry)
    requires Numbered(h.world.ctrl) && Solvent(net, start, h)
    requires Turns(h.world.ctrl, w'.ctrl, e.event) && Balanced(net, h.world, w', e.event) && Weighed(h.world, w', e.event)
    ensures Numbered(w'.ctrl) && Solvent(net, start, History(w', h.journal + [e]))
  {
    SumSnoc(Gifts(net.vault), h.journal, e);
    SumSnoc(Gifts(net.pool), h.journal, e);
    SumSnoc(Payouts, h.journal, e);
    SumSnoc(Reserves, h.journal, e);
    TallyMoves(LockedBond, h.world.ctrl, w'.ctrl, e.event);
  }

  lemma StepKeepsConserved(net: Net, start: World, h: History, w': World, e: Entry)
    requires Conserved(start, h) && Balanced(net, h.world, w', e.event)
    ensures Conserved(start, History(w', h.journal + [e]))
  {
    SumSnoc(Deposits, h.journal, e);
    SumSnoc(Refunds, h.journal, e);
    SumSnoc(Rewards, h.journal, e);
    SumSnoc(Reserves, h.journal, e);
    SumSnoc(Minting, h.journal, e);
  }

  /** A tally and a sum that move together stay as far apart as they were. */
  lemma TallyFollowsSum(m: Measure, f: Flow, h: History, w': World, e: Entry)
    requires Numbered(h.world.ctrl) && Turns(h.world.ctrl, w'.ctrl, e.event)
    requires Lifecycle(e.event) ==>
               Weigh(m, w'.ctrl.actions[e.event.id]) - Weigh(m, h.world.ctrl.actions[e.event.id]) == Amount(f, e.event)
    requires !Lifecycle(e.event) ==> Amount(f, e.event) == 0
    ensures Numbered(w'.ctrl)
    ensures Tally(m, w'.ctrl.actions, w'.ctrl.nextId) - Tally(m, h.world.ctrl.actions, h.world.ctrl.nextId)
         == Sum(f, h.journal + [e]) - Sum(f, h.journal)
  {
    SumSnoc(f, h.journal, e);
    TallyMoves(m, h.world.ctrl, w'.ctrl, e.event);
  }

  lemma StepKeepsAccounted(h: History, w': World, e: Entry)
    requires Numbered(h.world.ctrl) && Accounted(h)
    requires Turns(h.world.ctrl, w'.ctrl, e.event) && Weighed(h.world, w', e.event)
    ensures Numbered(w'.ctrl) && Accounted(History(w', h.journal + [e]))
  {
    TallyFollowsSum(ReserveShare(h.world.ctrl.challengerBps), Reserves, h, w', e);
    TallyFollowsSum(PaidOut, Payouts, h, w', e);
  }
}
