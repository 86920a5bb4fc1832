// What holds in every reachable state of the suite, and along every run.
module Theorems {
  import opened Common
  import opened Suite
  import opened Journal
  import opened Wiring
  import opened Custody
  import opened Payments
  import opened Justice
  import opened Reachable
  import opened Pricing
  import Ledger
  import Vault
  import Pool
  import Delivery

  // ---- Coupling and solvency ------------------------------------------------------------------

  /** The controller's statuses and the vault's bonds are the same story, for every action id. */
  lemma CopiesAgree(net: Net, start: World, h: History)
    requires Reaches(net, start, h)
    ensures var c, bonds := h.world.ctrl, h.world.vault.bonds;
            && (forall id: nat :: id in c.actions <==> id < c.nextId)
            && (forall id :: id in bonds ==> id in c.actions)
            && forall id :: id in c.actions ==>
                 var a := c.actions[id];
                 && (a.status.Initiated? <==> id !in bonds)
                 && (Open(a.status) <==> id in bonds && bonds[id] == Vault.Bond(a.agent, a.bondPosted, Vault.Locked))
                 && (Open(a.status) ==> a.bondPosted == a.bondRequired)
                 && (a.status.ResolvedSlash? <==> id in bonds && bonds[id].status.Slashed?)
                 && (a.status.ResolvedRefund? <==> id in bonds && bonds[id].status.Released?)
  {
    assert Coupled(net, h.world) by { ReachedIsGood(net, start, h); }
  }

  lemma {:induction false} GiftsAreNonNegative(a: Address, journal: seq<Entry>)
    ensures Sum(Gifts(a), journal) >= 0
  {
    if journal != [] {
      GiftsAreNonNegative(a, journal[..|journal| - 1]);
    }
  }

  lemma VaultIsSolvent(net: Net, start: World, h: History)
    requires Reaches(net, start, h)
    ensures Numbered(h.world.ctrl)
    ensures h.world.vault.totalLocked == Tally(LockedBond, h.world.ctrl.actions, h.world.ctrl.nextId)
    ensures h.world.token.Balance(net.vault) >= h.world.vault.totalLocked
  {
    assert Numbered(h.world.ctrl) && Solvent(net, start, h) by { ReachedIsGood(net, start, h); }
    GiftsAreNonNegative(net.vault, h.journal);
  }

  /** Every bond ever deposited is locked, refunded, rewarded or in the reserve, to the last unit; the pool's
      balance is what it was given, less what it paid, plus the reserve; only minting makes money. */
  lemma NothingIsLost(net: Net, start: World, h: History)
    requires Reaches(net, start, h)
    ensures Numbered(h.world.ctrl)
    ensures var w, j, c := h.world, h.journal, h.world.ctrl;
            && Sum(Deposits, j) == w.vault.totalLocked + Sum(Refunds, j) + Sum(Rewards, j) + Sum(Reserves, j)
            && w.pool.reserve == Sum(Reserves, j) == Tally(ReserveShare(c.challengerBps), c.actions, c.nextId)
            && w.token.Balance(net.pool)
               == start.token.Balance(net.pool) + Sum(Gifts(net.pool), j) - Sum(Payouts, j) + w.pool.reserve
            && Sum(Payouts, j) == Tally(PaidOut, c.actions, c.nextId)
            && w.token.supply == Total(w.token.balances) == start.token.supply + Sum(Minting, j)
  {
    ReachedIsGood(net, start, h);
  }

  // ---- Progress -------------------------------------------------------------------------------

  lemma {:induction false} TallyCovers(actions: map<nat, Action>, n: nat, id: nat)
    requires forall i :: 0 <= i < n ==> i in actions
    ensures Tally(LockedBond, actions, n) >= 0
    ensures id < n ==> Tally(LockedBond, actions, n) >= Weigh(LockedBond, actions[id])
  {
    if n > 0 {
      TallyCovers(actions, n - 1, id);
    }
  }

  /** What a locked bond guarantees: the vault can pay it out and its counter covers it. */
  lemma BondIsCovered(net: Net, start: World, h: History, id: nat)
    requires Coupled(net, h.world) && Solvent(net, start, h) && id in h.world.ctrl.actions && Open(h.world.ctrl.actions[id].status)
    ensures var w := h.world;
            var a := w.ctrl.actions[id];
            && id in w.vault.bonds && w.vault.bonds[id] == Vault.Bond(a.agent, a.bondPosted, Vault.Locked)
            && a.bondPosted <= w.vault.totalLocked <= w.token.Balance(net.vault)
            && a.agent != net.vault && a.agent != net.pool
  {
    var w := h.world;
    assert Agree(net, w.ctrl.actions[id], id, w.vault.bonds);
    GiftsAreNonNegative(net.vault, h.journal);
    TallyCovers(w.ctrl.actions, w.ctrl.nextId, id);
  }

  lemma ReachedMoney(net: Net, start: World, h: History)
    requires Reaches(net, start, h)
    ensures Wired(net, h.world) && NoAllowances(net, h.world.token) && Coupled(net, h.world) && Solvent(net, start, h)
  {
    ReachedIsGood(net, start, h);
  }

  /** Every guard, transfer and subtraction inside a slash holds for a covered bond. */
  lemma SlashSucceeds(net: Net, w: World, id: nat, a: Action)
    requires Wired(net, w) && a.challenger.Some? && a.challenger.value != net.vault
    requires id in w.vault.bonds && w.vault.bonds[id] == Vault.Bond(a.agent, a.bondPosted, Vault.Locked)
    requires a.bondPosted <= w.vault.totalLocked <= w.token.Balance(net.vault)
    ensures Slash(net, w, id, a).Ok?
  {
    Vault.ShareAtMostAll(a.bondPosted, w.ctrl.challengerBps);
  }

  /** Resolving succeeds exactly for a challenged action, and for an executed one past its window: no inner
      guard, transfer or subtraction of the vault or the pool can ever get in the way. */
  lemma ResolveNeverStuck(net: Net, start: World, h: History, tx: Tx)
    requires Reaches(net, start, h) && Admissible(net, h.world, tx) && tx.call.ResolveAction?
    ensures var c, id := h.world.ctrl, tx.call.id;
            Apply(net, h.world, tx).Ok? <==>
              && id in c.actions
              && (c.actions[id].status.Challenged?
                  || (c.actions[id].status.Executed? && c.actions[id].windowEnd < tx.now))
  {
    ReachedMoney(net, start, h);
    var w, c, id := h.world, h.world.ctrl, tx.call.id;
    if id in c.actions && Open(c.actions[id].status) {
      BondIsCovered(net, start, h, id);
      assert Agree(net, c.actions[id], id, w.vault.bonds);
      if c.actions[id].status.Challenged? {
        SlashSucceeds(net, w, id, c.actions[id]);
      }
    }
  }

  /** What slashing `a` pays and takes. */
  ghost predicate PaysOut(net: Net, w: World, w': World, id: nat, a: Action)
    requires a.challenger.Some?
  {
    var reward := a.bondPosted * w.ctrl.challengerBps / 10_000;
    && id in w'.ctrl.actions && w'.ctrl.actions[id] == a.(status := ResolvedSlash)
    && reward <= a.bondPosted
    && w'.token.Balance(a.challenger.value) == w.token.Balance(a.challenger.value) + reward
    && w'.token.Balance(net.pool) == w.token.Balance(net.pool) + a.bondPosted - reward
    && w'.pool.reserve == w.pool.reserve + a.bondPosted - reward
    && w'.token.Balance(net.vault) == w.token.Balance(net.vault) - a.bondPosted
    && w'.vault.totalLocked == w.vault.totalLocked - a.bondPosted
  }

  lemma SlashSettles(net: Net, w: World, w': World, id: nat)
    requires Wired(net, w) && NoAllowances(net, w.token) && Coupled(net, w)
    requires id in w.ctrl.actions && w.ctrl.actions[id].status.Challenged?
    requires Slash(net, w, id, w.ctrl.actions[id]) == Ok(w')
    ensures w.ctrl.actions[id].challenger.Some? && PaysOut(net, w, w', id, w.ctrl.actions[id])
  {
    assert Agree(net, w.ctrl.actions[id], id, w.vault.bonds);
    SlashExplained(net, w, w', id);
  }

  /** A slash pays the bond out in full: the challenger's share, and the rest to the pool, whose reserve counter
      grows by the very amount that the vault, splitting on its own, sent there. */
  lemma SlashPaysInFull(net: Net, start: World, h: History, tx: Tx)
    requires Reaches(net, start, h) && Admissible(net, h.world, tx) && tx.call.ResolveAction?
    requires tx.call.id in h.world.ctrl.actions && h.world.ctrl.actions[tx.call.id].status.Challenged?
    ensures h.world.ctrl.actions[tx.call.id].challenger.Some?
    ensures PaysOut(net, h.world, Next(net, h.world, tx), tx.call.id, h.world.ctrl.actions[tx.call.id])
  {
    ReachedMoney(net, start, h);
    ResolveNeverStuck(net, start, h, tx);
    SlashSettles(net, h.world, Apply(net, h.world, tx).value, tx.call.id);
  }

  /** A refund returns the whole bond to the agent who posted it. */
  lemma RefundPaysInFull(net: Net, start: World, h: History, tx: Tx)
    requires Reaches(net, start, h) && Admissible(net, h.world, tx) && tx.call.ResolveAction?
    requires tx.call.id in h.world.ctrl.actions && h.world.ctrl.actions[tx.call.id].status.Executed?
    requires h.world.ctrl.actions[tx.call.id].windowEnd < tx.now
    ensures var w, w' := h.world, Next(net, h.world, tx);
            var a := w.ctrl.actions[tx.call.id];
            && w'.ctrl.actions[tx.call.id] == a.(status := ResolvedRefund)
            && w'.token.Balance(a.agent) == w.token.Balance(a.agent) + a.bondPosted
            && w'.token.Balance(net.vault) == w.token.Balance(net.vault) - a.bondPosted
            && w'.vault.totalLocked == w.vault.totalLocked - a.bondPosted
            && w'.pool == w.pool
  {
    ReachedMoney(net, start, h);
    ResolveNeverStuck(net, start, h, tx);
    BondIsCovered(net, start, h, tx.call.id);
    RefundExplained(net, h.world, Apply(net, h.world, tx).value, tx.call.id, tx.now);
  }

  /** Executing succeeds exactly for the bonded action's own agent, on an unpaid invoice that says the same as the
      action, while the pool can pay a vendor other than itself. */
  lemma ExecuteExactly(net: Net, start: World, h: History, tx: Tx)
    requires Reaches(net, start, h) && Admissible(net, h.world, tx) && tx.call.ExecuteAction?
    ensures var w, id := h.world, tx.call.id;
            Apply(net, w, tx).Ok? <==>
              && id in w.ctrl.actions
              && (var a := w.ctrl.actions[id];
                  && tx.caller == a.agent && a.status.Bonded?
                  && a.invoiceId in w.pool.invoices
                  && (var i := w.pool.invoices[a.invoiceId];
                      && !i.paid && i.amount == a.amount && i.claim == a.claim
                      && i.vendor != net.pool && a.amount <= w.token.Balance(net.pool)))
  {
    ReachedMoney(net, start, h);
    if tx.call.id in h.world.ctrl.actions {
      assert Agree(net, h.world.ctrl.actions[tx.call.id], tx.call.id, h.world.vault.bonds);
    }
  }

  /** A challenge succeeds exactly on an executed action inside its window, for a duplicate the pool flagged or for
      unspent evidence that proves the fault. */
  lemma ChallengeExactly(net: Net, start: World, h: History, tx: Tx)
    requires Reaches(net, start, h) && Admissible(net, h.world, tx) && tx.call.ChallengeAction?
    ensures var w := h.world;
            var ChallengeAction(id, faultClass, evidence) := tx.call;
            Apply(net, w, tx).Ok? <==>
              && id in w.ctrl.actions
              && (var a := w.ctrl.actions[id];
                  && a.status.Executed? && tx.now <= a.windowEnd
                  && Faulty(net, w.pool, id, a.invoiceId, faultClass, evidence, tx.now)
                  && (faultClass == DELIVERY ==> evidence !in w.used))
  {
    ReachedMoney(net, start, h);
  }

  // ---- Runs from a reachable state ------------------------------------------------------------

  /** Whatever every explained step keeps, every run keeps: the ladder of one action. */
  function Rank(s: Status): nat {
    match s
    case Initiated => 0
    case Bonded => 1
    case Executed => 2
    case Challenged => 3
    case ResolvedSlash => 4
    case ResolvedRefund => 4
  }

  /** From `c` to `c'`, action `id` kept its terms and only climbed; once resolved it never moves again. */
  ghost predicate Climbs(c: Controller, c': Controller, id: nat)
    requires id in c.actions
  {
    && id in c'.actions
    && SameTerms(c.actions[id], c'.actions[id])
    && Rank(c.actions[id].status) <= Rank(c'.actions[id].status)
    && (Rank(c.actions[id].status) == Rank(c'.actions[id].status) ==> c'.actions[id] == c.actions[id])
  }

  lemma StepClimbs(net: Net, w: World, tx: Tx, id: nat)
    requires InOrder(net, w)
    requires Admissible(net, w, tx) && id in w.ctrl.actions
    ensures Climbs(w.ctrl, Next(net, w, tx).ctrl, id)
  {
    var success, e := StepCases(net, w, tx);
  }

  lemma {:induction false} RunClimbs(net: Net, h: History, txs: seq<Tx>, id: nat)
    requires InOrder(net, h.world) && AdmissibleRun(net, h, txs) && id in h.world.ctrl.actions
    ensures Climbs(h.world.ctrl, Run(net, h, txs).world.ctrl, id)
    decreases txs
  {
    if txs != [] {
      StepClimbs(net, h.world, txs[0], id);
      StepStaysInOrder(net, h.world, txs[0]);
      RunClimbs(net, Record(net, h, txs[0]), txs[1..], id);
    }
  }

  /** Along every run invoice terms are fixed, `paid` never flips back and duplicates stay flagged. */
  lemma {:induction false} RunRemembers(net: Net, h: History, txs: seq<Tx>)
    requires InOrder(net, h.world) && AdmissibleRun(net, h, txs)
    ensures Remembers(h.world.pool, Run(net, h, txs).world.pool)
    decreases txs
  {
    if txs != [] {
      var success, e := StepCases(net, h.world, txs[0]);
      StepStaysInOrder(net, h.world, txs[0]);
      RunRemembers(net, Record(net, h, txs[0]), txs[1..]);
    }
  }

  /** Executed with the window over, or already refunded. */
  ghost predicate BeyondChallenge(w: World, id: nat) {
    && id in w.ctrl.actions
    && w.ctrl.actions[id].windowEnd < w.now
    && (w.ctrl.actions[id].status.Executed? || w.ctrl.actions[id].status.ResolvedRefund?)
  }

  lemma StepStaysBeyond(net: Net, w: World, tx: Tx, id: nat)
    requires InOrder(net, w)
    requires Admissible(net, w, tx) && BeyondChallenge(w, id)
    ensures BeyondChallenge(Next(net, w, tx), id)
  {
    var success, e := StepCases(net, w, tx);
    if success && e.event.Contested? {
      ContestIsInTime(net, w, Next(net, w, tx), e);
    }
  }

  lemma ContestIsInTime(net: Net, w: World, w': World, e: Entry)
    requires Explains(net, w, w', e) && e.event.Contested?
    ensures e.event.id in w.ctrl.actions && w.now <= e.time <= w.ctrl.actions[e.event.id].windowEnd
  {
  }

  /** Past its window and unchallenged, an action has one possible end: the refund. */
  lemma {:induction false} OnlyRefundRemains(net: Net, h: History, txs: seq<Tx>, id: nat)
    requires InOrder(net, h.world) && AdmissibleRun(net, h, txs) && BeyondChallenge(h.world, id)
    ensures BeyondChallenge(Run(net, h, txs).world, id)
    decreases txs
  {
    if txs != [] {
      StepStaysBeyond(net, h.world, txs[0], id);
      StepStaysInOrder(net, h.world, txs[0]);
      OnlyRefundRemains(net, Record(net, h, txs[0]), txs[1..], id);
    }
  }
}
