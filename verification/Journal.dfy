// History of a run: what every successful transaction did, in order, and the sums taken over it.
module Journal {
  import opened Common
  import opened Suite
  import Pool
  import Vault

  datatype Event =
    | Quiet
    | Minted(to: Address, amount: nat)
    | Moved(source: Address, to: Address, amount: nat)
    | Listed(id: nat, terms: Pool.Invoice)
    | Opened(id: nat, agent: Address, invoiceId: nat, claim: Bytes, amount: nat, reasoning: Bytes)
    | Posted(id: nat, agent: Address, amount: nat)
    | Paid(id: nat, invoiceId: nat, vendor: Address, claim: Bytes, amount: nat)
    | Contested(id: nat, faultClass: string, evidence: Bytes)
    | Proven(evidence: Bytes)
    | Refunded(id: nat, agent: Address, amount: nat)
    | Slashed(id: nat, agent: Address, challenger: Address, reward: nat, reserve: nat)

  datatype Entry = Entry(caller: Address, time: nat, event: Event)

  datatype History = History(world: World, journal: seq<Entry>)

  function TokenEvent(caller: Address, call: TokenCall): Event {
    match call
    case Mint(to, amount) => Minted(to, amount)
    case Transfer(to, amount) => Moved(caller, to, amount)
    case TransferFrom(holder, to, amount) => Moved(holder, to, amount)
    case _ => Quiet
  }

  /** What a successful transaction did, read off the state it started in. */
  function EventOf(net: Net, w: World, tx: Tx): Event
    requires Apply(net, w, tx).Ok?
  {
    match tx.call
    case Token(call) => TokenEvent(tx.caller, call)
    case VerifyDelivery(pool, answer, id, invoiceId, evidence) =>
      if Apply(net, w, tx).value == w then Quiet else Proven(evidence)
    case SubmitInvoice(id, terms) => Listed(id, terms)
    case InitiateAction(invoiceId, claim, amount, reasoning) =>
      Opened(w.ctrl.nextId, tx.caller, invoiceId, claim, amount, reasoning)
    case PostBond(id) => Posted(id, w.ctrl.actions[id].agent, w.ctrl.actions[id].bondRequired)
    case ExecuteAction(id) =>
      var a := w.ctrl.actions[id];
      Paid(id, a.invoiceId, w.pool.invoices[a.invoiceId].vendor, a.claim, a.amount)
    case ChallengeAction(id, faultClass, evidence) => Contested(id, faultClass, evidence)
    case ResolveAction(id) =>
      var a := w.ctrl.actions[id];
      if a.status == Executed then Refunded(id, a.agent, w.vault.bonds[id].amount)
      else
        var bond := w.vault.bonds[id].amount;
        var reward := Vault.ChallengerShare(bond, w.ctrl.challengerBps);
        Vault.ShareAtMostAll(bond, w.ctrl.challengerBps);
        Slashed(id, a.agent, a.challenger.value, reward, bond - reward)
    case _ => Quiet
  }

  function Record(net: Net, h: History, tx: Tx): History {
    History(
      Next(net, h.world, tx),
      if Apply(net, h.world, tx).Ok? then h.journal + [Entry(tx.caller, tx.now, EventOf(net, h.world, tx))]
      else h.journal)
  }

  function Run(net: Net, h: History, txs: seq<Tx>): History
    decreases txs
  {
    if txs == [] then h else Run(net, Record(net, h, txs[0]), txs[1..])
  }

  /** What the environment grants: outside callers, a clock that never runs back, and genuine verifiers. */
  predicate Admissible(net: Net, w: World, tx: Tx) {
    && tx.caller !in net.Contracts()
    && w.now <= tx.now
    && (tx.call.RegisterVerifier? ==>
          && (tx.call.faultClass == DUPLICATE ==> tx.call.verifier == net.duplicateVerifier)
          && (tx.call.faultClass == DELIVERY ==> tx.call.verifier == net.deliveryVerifier))
  }

  predicate AdmissibleRun(net: Net, h: History, txs: seq<Tx>)
    decreases txs
  {
    txs == [] || (Admissible(net, h.world, txs[0]) && AdmissibleRun(net, Record(net, h, txs[0]), txs[1..]))
  }

  // ---- Sums over the journal ------------------------------------------------------------------

  datatype Flow =
    | Minting
    | Gifts(receiver: Address)
    | Deposits
    | Refunds
    | Rewards
    | Earned(challenger: Address)
    | Reserves
    | Payouts
    | Score(who: Address)
    | Calls

  function Amount(f: Flow, e: Event): int {
    match f
    case Minting => if e.Minted? then e.amount else 0
    case Gifts(a) =>
      if (e.Minted? || e.Moved?) && e.to == a then e.amount
      else if e.Paid? && e.vendor == a then e.amount
      else 0
    case Deposits => if e.Posted? then e.amount else 0
    case Refunds => if e.Refunded? then e.amount else 0
    case Rewards => if e.Slashed? then e.reward else 0
    case Earned(a) => if e.Slashed? && e.challenger == a then e.reward else 0
    case Reserves => if e.Slashed? then e.reserve else 0
    case Payouts => if e.Paid? then e.amount else 0
    case Score(a) =>
      if e.Refunded? && e.agent == a then 10
      else if e.Slashed? && e.agent == a then -50
      else 0
    case Calls => if e.Posted? || e.Paid? || e.Contested? || e.Refunded? || e.Slashed? then 1 else 0
  }

  function Sum(f: Flow, journal: seq<Entry>): int {
    if journal == [] then 0
    else Sum(f, journal[..|journal| - 1]) + Amount(f, journal[|journal| - 1].event)
  }

  lemma SumSnoc(f: Flow, journal: seq<Entry>, e: Entry)
    ensures Sum(f, journal + [e]) == Sum(f, journal) + Amount(f, e.event)
  {
    assert (journal + [e])[..|journal|] == journal;
  }

  // ---- Sums over the actions ------------------------------------------------------------------

  datatype Measure =
    | LockedBond
    | ReserveShare(bps: nat)
    | PaidOut
    | CleanOf(who: Address)
    | SlashedOf(who: Address)
    | CallsMade

  /** An action whose bond is in the vault. */
  predicate Open(s: Status) {
    s.Bonded? || s.Executed? || s.Challenged?
  }

  /** An action whose invoice was paid. */
  predicate Settled(s: Status) {
    !s.Initiated? && !s.Bonded?
  }

  function CallCount(s: Status): nat {
    match s
    case Initiated => 0
    case Bonded => 1
    case Executed => 2
    case Challenged => 3
    case ResolvedSlash => 4
    case ResolvedRefund => 3
  }

  function Weigh(m: Measure, a: Action): int {
    match m
    case LockedBond => if Open(a.status) then a.bondPosted else 0
    case ReserveShare(bps) =>
      if a.status.ResolvedSlash? then a.bondPosted - Vault.ChallengerShare(a.bondPosted, bps) else 0
    case PaidOut => if Settled(a.status) then a.amount else 0
    case CleanOf(agent) => if a.status.ResolvedRefund? && a.agent == agent then 1 else 0
    case SlashedOf(agent) => if a.status.ResolvedSlash? && a.agent == agent then 1 else 0
    case CallsMade => CallCount(a.status)
  }

  function Tally(m: Measure, actions: map<nat, Action>, n: nat): int
    requires forall i :: 0 <= i < n ==> i in actions
  {
    if n == 0 then 0 else Tally(m, actions, n - 1) + Weigh(m, actions[n - 1])
  }

  lemma {:induction false} TallyUpdate(m: Measure, actions: map<nat, Action>, n: nat, id: nat, a: Action)
    requires forall i :: 0 <= i < n ==> i in actions
    ensures Tally(m, actions[id := a], n)
         == Tally(m, actions, n) + if id < n then Weigh(m, a) - Weigh(m, actions[id]) else 0
  {
    if n > 0 {
      TallyUpdate(m, actions, n - 1, id, a);
    }
  }
}
