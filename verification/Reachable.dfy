// Every state any admissible run can reach from the wired start satisfies every invariant.
module Reachable {
  import opened Common
  import opened Suite
  import opened Journal
  import opened Wiring
  import opened Custody
  import opened Payments
  import opened Justice

  /** The suite as wired and not yet used. Balances, unpaid invoices and spent evidence may exist. */
  ghost predicate Genesis(net: Net, w: World) {
    && Wired(net, w) && NoAllowances(net, w.token)
    && w.token.supply == Total(w.token.balances)
    && w.vault.bonds == map[] && w.vault.totalLocked == 0
    && w.ctrl.actions == map[] && w.ctrl.nextId == 0 && w.ctrl.reputation == map[]
    && w.pool.paidClaims == map[] && w.pool.actionDup == {} && w.pool.reserve == 0
    && (forall i :: i in w.pool.invoices ==> !w.pool.invoices[i].paid)
  }

  ghost predicate GoodMoney(net: Net, start: World, h: History) {
    && Wired(net, h.world) && NoAllowances(net, h.world.token)
    && Coupled(net, h.world) && Solvent(net, start, h) && Conserved(start, h) && Accounted(h)
  }

  ghost predicate GoodStory(net: Net, start: World, h: History) {
    var c := h.world.ctrl;
    && Numbered(c)
    && Paying(h) && Judged(net, h.world, h.journal) && EndedOnce(c, h.journal)
    && SpentOnce(start, h.world.used, Accepted(h.journal))
    && Rated(c, h.journal) && Priced(c, h.journal) && Windowed(c, h.journal, start.ctrl.windowSecs)
    && Sum(Calls, h.journal) == Tally(CallsMade, c.actions, c.nextId)
  }

  ghost predicate Good(net: Net, start: World, h: History) {
    GoodMoney(net, start, h) && GoodStory(net, start, h)
  }

  lemma GenesisIsGood(net: Net, start: World)
    requires Genesis(net, start)
    ensures Good(net, start, History(start, []))
  {
  }

  lemma EntryKeepsMoney(net: Net, start: World, h: History, w': World, e: Entry)
    requires GoodMoney(net, start, h) && Explains(net, h.world, w', e)
    ensures GoodMoney(net, start, History(w', h.journal + [e]))
  {
    ExplainedKeepsWired(net, h.world, w', e);
    StepTurns(net, h.world, w', e);
    StepKeepsCoupled(net, h.world, w', e);
    StepBalanced(net, h.world, w', e);
    StepKeepsSolvent(net, start, h, w', e);
    StepKeepsConserved(net, start, h, w', e);
    StepKeepsAccounted(h, w', e);
  }

  lemma EntryKeepsStory(net: Net, start: World, h: History, w': World, e: Entry)
    requires Coupled(net, h.world) && Coupled(net, w') && GoodStory(net, start, h) && Explains(net, h.world, w', e)
    ensures GoodStory(net, start, History(w', h.journal + [e]))
  {
    StepTurns(net, h.world, w', e);
    StepRemembers(net, h.world, w', e);
    StepKeepsPaying(net, h, w', e);
    StepKeepsJudged(net, h, w', e);
    StepKeepsEndedOnce(h.world.ctrl, w'.ctrl, h.journal, e);
    StepKeepsSpentOnce(net, start, h, w', e);
    StepKeepsRated(net, h, w', e);
    StepKeepsPriced(net, h, w', e);
    StepKeepsWindowed(net, h, w', e, start.ctrl.windowSecs);
    StepKeepsCalls(h.world.ctrl, w'.ctrl, h.journal, e);
  }

  /** The invariants do not depend on the clock. */
  lemma ClockKeepsGood(net: Net, start: World, h: History, now: nat)
    requires Good(net, start, h)
    ensures Good(net, start, History(h.world.(now := now), h.journal))
  {
    var w' := h.world.(now := now);
    assert forall id :: IsSettled(w'.ctrl, id) ==> Covered(h.world, id) && Covered(w', id);
  }

  /** A transaction either reverts, and only the clock moves, or is explained by the entry it leaves. */
  lemma StepCases(net: Net, w: World, tx: Tx) returns (success: bool, e: Entry)
    requires Wired(net, w) && NoAllowances(net, w.token) && Admissible(net, w, tx)
    ensures success <==> Apply(net, w, tx).Ok?
    ensures !success ==> Next(net, w, tx) == w.(now := tx.now)
    ensures success ==> e == Entry(tx.caller, tx.now, EventOf(net, w, tx)) && Explains(net, w, Next(net, w, tx), e)
    ensures success ==> Turns(w.ctrl, Next(net, w, tx).ctrl, e.event) && Remembers(w.pool, Next(net, w, tx).pool)
  {
    success := Apply(net, w, tx).Ok?;
    if success {
      e := Entry(tx.caller, tx.now, EventOf(net, w, tx));
      StepExplained(net, w, tx);
      StepTurns(net, w, Next(net, w, tx), e);
      StepRemembers(net, w, Next(net, w, tx), e);
    } else {
      e := Entry(tx.caller, tx.now, Quiet);
    }
  }

  /** Wired, with action ids in order: all that what follows in a run depends on. */
  ghost predicate InOrder(net: Net, w: World) {
    Wired(net, w) && NoAllowances(net, w.token) && Numbered(w.ctrl)
  }

  lemma StepStaysInOrder(net: Net, w: World, tx: Tx)
    requires InOrder(net, w) && Admissible(net, w, tx)
    ensures InOrder(net, Next(net, w, tx))
  {
    var success, e := StepCases(net, w, tx);
    if success {
      ExplainedKeepsWired(net, w, Next(net, w, tx), e);
    }
  }

  lemma StepKeepsGood(net: Net, start: World, h: History, tx: Tx)
    requires Good(net, start, h) && Admissible(net, h.world, tx)
    ensures Good(net, start, Record(net, h, tx))
  {
    if Apply(net, h.world, tx).Ok? {
      StepExplained(net, h.world, tx);
      var w', e := Next(net, h.world, tx), Entry(tx.caller, tx.now, EventOf(net, h.world, tx));
      EntryKeepsMoney(net, start, h, w', e);
      EntryKeepsStory(net, start, h, w', e);
    } else {
      ClockKeepsGood(net, start, h, tx.now);
    }
  }

  lemma {:induction false} RunKeepsGood(net: Net, start: World, h: History, txs: seq<Tx>)
    requires Good(net, start, h) && AdmissibleRun(net, h, txs)
    ensures Good(net, start, Run(net, h, txs))
    decreases txs
  {
    if txs != [] {
      StepKeepsGood(net, start, h, txs[0]);
      RunKeepsGood(net, start, Record(net, h, txs[0]), txs[1..]);
    }
  }

  ghost predicate RunsTo(net: Net, start: World, txs: seq<Tx>, h: History) {
    AdmissibleRun(net, History(start, []), txs) && h == Run(net, History(start, []), txs)
  }

  /** `h` is the history of some admissible run of the wired suite. */
  ghost predicate Reaches(net: Net, start: World, h: History) {
    Genesis(net, start) && exists txs :: RunsTo(net, start, txs, h)
  }

  lemma ReachedIsGood(net: Net, start: World, h: History)
    requires Reaches(net, start, h)
    ensures Good(net, start, h)
  {
    var txs :| RunsTo(net, start, txs, h);
    GenesisIsGood(net, start);
    RunKeepsGood(net, start, History(start, []), txs);
  }

  /** Every reachable state is in order. */
  lemma ReachedIsInOrder(net: Net, start: World, h: History)
    requires Reaches(net, start, h)
    ensures InOrder(net, h.world)
  {
    ReachedIsGood(net, start, h);
  }
}
