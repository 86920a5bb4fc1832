// Reached states and runs in which the system falls short: two agents bond the same claim, and what can follow.
module Cases {
  import opened Common
  import opened Suite
  import opened Journal
  import opened Wiring
  import opened Custody
  import opened Payments
  import opened Reachable
  import opened Outcomes
  import opened Watchdog
  import opened Bridge
  import Delivery
  import Ledger
  import Pool
  import Pricing
  import Vault
  import Theorems
  import WatchdogScan

  const NOBODY: Delivery.Ed25519 := Delivery.Ed25519(k => false, s => false, (k, m, s) => false)
  const NET: Net := Net(Address(0), Address(1), Address(2), Address(3), Address(4), Address(5), NOBODY)
  const OWNER: Address := Address(10)
  const AGENT: Address := Address(11)
  const RIVAL: Address := Address(12)
  const VENDOR: Address := Address(13)
  const WATCHDOG: Address := Address(14)
  const CLAIM: Bytes := [7]
  const INVOICE: Pool.Invoice := Pool.Invoice(10_000, VENDOR, CLAIM, [], 0, [], false)

  /** Wired and funded, with two invoices of one claim. */
  function Start(): World {
    World(
      Ledger.Store(OWNER, 1_000_000, map[][AGENT := 1_000][RIVAL := 1_000][NET.pool := 998_000],
                   map[(AGENT, NET.vault) := 1_000, (RIVAL, NET.vault) := 1_000]),
      Vault.Store(OWNER, NET.controller, true, map[], 0),
      Pool.Store(OWNER, NET.controller, true, map[0 := INVOICE, 1 := INVOICE], map[], {}, 0),
      Controller(OWNER, NET.pool, true, 0, map[], map[], 1_800, 5_000,
                 map[DUPLICATE := NET.duplicateVerifier, DELIVERY := NET.deliveryVerifier]),
      {}, 0)
  }

  lemma StartIsGenesis()
    ensures Genesis(NET, Start())
  {
    TotalUpdate<Address>(map[], AGENT, 1_000);
    TotalUpdate(map[][AGENT := 1_000], RIVAL, 1_000);
    TotalUpdate(map[][AGENT := 1_000][RIVAL := 1_000], NET.pool, 998_000);
    assert DUPLICATE[0] != DELIVERY[1] && |DUPLICATE| != |DELIVERY|;
  }

  // ---- Two bonded actions ---------------------------------------------------------------------

  function Sent(caller: Address, call: Call): Tx {
    Tx(caller, 0, call)
  }

  /** The agent initiates and bonds action 0 on invoice `i`, its rival action 1 on invoice `j`. */
  function Bonding(i: nat, j: nat): seq<Tx> {
    [Sent(AGENT, InitiateAction(i, CLAIM, 10_000, [])), Sent(RIVAL, InitiateAction(j, CLAIM, 10_000, [])),
     Sent(AGENT, PostBond(0)), Sent(RIVAL, PostBond(1))]
  }

  function BondedAction(agent: Address, invoiceId: nat): Action {
    Action(agent, invoiceId, CLAIM, 10_000, [], 200, 200, 0, Bonded, None, "", [])
  }

  /** Where that leads: each bond of 200 in the vault. */
  ghost predicate BothBonded(w: World, i: nat, j: nat) {
    && w.now == 0 && w.used == {}
    && w.vault == Vault.Store(OWNER, NET.controller, true,
                              map[0 := Vault.Bond(AGENT, 200, Vault.Locked), 1 := Vault.Bond(RIVAL, 200, Vault.Locked)], 400)
    && w.pool == Start().pool
    && w.ctrl == Start().ctrl.(nextId := 2, actions := map[0 := BondedAction(AGENT, i), 1 := BondedAction(RIVAL, j)])
    && w.token.Balance(NET.pool) == 998_000 && w.token.Balance(NET.vault) == 400
  }

  lemma BothInitiated(i: nat, j: nat)
    ensures var w2 := Next(NET, Next(NET, Start(), Bonding(i, j)[0]), Bonding(i, j)[1]);
            w2 == Start().(ctrl := Start().ctrl.(nextId := 2, actions := map[
                    0 := BondedAction(AGENT, i).(bondPosted := 0, status := Initiated),
                    1 := BondedAction(RIVAL, j).(bondPosted := 0, status := Initiated)]))
  {
    assert Pricing.BondRequired(10_000, 0) == 200;
  }

  lemma BondsPosted(w2: World, i: nat, j: nat)
    requires w2 == Start().(ctrl := Start().ctrl.(nextId := 2, actions := map[
                    0 := BondedAction(AGENT, i).(bondPosted := 0, status := Initiated),
                    1 := BondedAction(RIVAL, j).(bondPosted := 0, status := Initiated)]))
    ensures BothBonded(Next(NET, Next(NET, w2, Bonding(i, j)[2]), Bonding(i, j)[3]), i, j)
  {
  }

  lemma {:induction false} RunSplits(h: History, a: seq<Tx>, b: seq<Tx>)
    ensures Run(NET, h, a + b) == Run(NET, Run(NET, h, a), b)
    ensures AdmissibleRun(NET, h, a) && AdmissibleRun(NET, Run(NET, h, a), b) ==> AdmissibleRun(NET, h, a + b)
    decreases a
  {
    if a == [] {
      assert a + b == b;
    } else {
      assert (a + b)[1..] == a[1..] + b;
      RunSplits(Journal.Record(NET, h, a[0]), a[1..], b);
    }
  }

  lemma OneMore(h: History, tx: Tx)
    ensures Run(NET, h, [tx]) == Journal.Record(NET, h, tx)
    ensures Admissible(NET, h.world, tx) ==> AdmissibleRun(NET, h, [tx])
  {
    assert [tx][1..] == [];
    assert Run(NET, Journal.Record(NET, h, tx), []) == Journal.Record(NET, h, tx);
    assert AdmissibleRun(NET, Journal.Record(NET, h, tx), []);
  }

  lemma OneReaches(h: History, tx: Tx)
    requires Reaches(NET, Start(), h) && Admissible(NET, h.world, tx)
    ensures Reaches(NET, Start(), Journal.Record(NET, h, tx))
  {
    var txs :| RunsTo(NET, Start(), txs, h);
    OneMore(h, tx);
    RunSplits(History(Start(), []), txs, [tx]);
    assert RunsTo(NET, Start(), txs + [tx], Journal.Record(NET, h, tx));
  }

  lemma BondingReaches(i: nat, j: nat) returns (h: History)
    ensures Reaches(NET, Start(), h) && BothBonded(h.world, i, j)
  {
    var txs, h0 := Bonding(i, j), History(Start(), []);
    StartIsGenesis();
    assert Run(NET, h0, []) == h0 && RunsTo(NET, Start(), [], h0);
    var h1 := Journal.Record(NET, h0, txs[0]);
    OneReaches(h0, txs[0]);
    var h2 := Journal.Record(NET, h1, txs[1]);
    OneReaches(h1, txs[1]);
    BothInitiated(i, j);
    var h3 := Journal.Record(NET, h2, txs[2]);
    OneReaches(h2, txs[2]);
    h := Journal.Record(NET, h3, txs[3]);
    OneReaches(h3, txs[3]);
    BondsPosted(h2.world, i, j);
  }

  // ---- One invoice for two --------------------------------------------------------------------

  lemma RivalExecutes(w: World)
    requires BothBonded(w, 0, 0)
    ensures Blocked(Next(NET, w, Sent(RIVAL, ExecuteAction(1))), 0)
  {
    assert Execute(NET, w, RIVAL, 1, 0).Ok?;
  }

  /** Both bond on invoice 0 and the rival executes: the agent's action is stuck for good. */
  lemma BlockedIsReachable() returns (h: History)
    ensures Reaches(NET, Start(), h) && Blocked(h.world, 0)
    ensures forall txs :: AdmissibleRun(NET, h, txs) ==> Blocked(Run(NET, h, txs).world, 0)
  {
    var before := BondingReaches(0, 0);
    var tx := Sent(RIVAL, ExecuteAction(1));
    h := Journal.Record(NET, before, tx);
    OneReaches(before, tx);
    RivalExecutes(before.world);
    ReachedIsInOrder(NET, Start(), h);
    forall txs | AdmissibleRun(NET, h, txs) ensures Blocked(Run(NET, h, txs).world, 0) {
      BlockedForEver(NET, h, txs, 0);
    }
  }

  // ---- Two invoices of one claim --------------------------------------------------------------

  function Agent(id: nat): Address {
    if id == 0 then AGENT else RIVAL
  }

  /** Both were executed at time 0, `first` before the other. */
  ghost predicate BothExecuted(w: World, first: nat) {
    && w.now == 0 && w.used == {} && w.token.Balance(NET.vault) == 400
    && w.pool.paidClaims == map[CLAIM := first] && w.pool.actionDup == {1 - first}
    && w.pool.controller == NET.controller && w.vault.controller == NET.controller
    && w.vault.bonds == map[0 := Vault.Bond(AGENT, 200, Vault.Locked), 1 := Vault.Bond(RIVAL, 200, Vault.Locked)]
    && w.vault.totalLocked == 400
    && w.ctrl == Start().ctrl.(nextId := 2, actions := map[
         0 := BondedAction(AGENT, 0).(windowEnd := 1_800_000, status := Executed),
         1 := BondedAction(RIVAL, 1).(windowEnd := 1_800_000, status := Executed)])
  }

  lemma ExecutingReaches(first: nat) returns (h: History)
    requires first <= 1
    ensures Reaches(NET, Start(), h) && BothExecuted(h.world, first)
  {
    var before := BondingReaches(0, 1);
    var tx1, tx2 := Sent(Agent(first), ExecuteAction(first)), Sent(Agent(1 - first), ExecuteAction(1 - first));
    var h1 := Journal.Record(NET, before, tx1);
    OneReaches(before, tx1);
    h := Journal.Record(NET, h1, tx2);
    OneReaches(h1, tx2);
    FirstExecuted(before.world, first);
    SecondExecuted(before.world, h1.world, first);
  }

  lemma FirstExecuted(w: World, first: nat)
    requires first <= 1 && BothBonded(w, 0, 1)
    ensures var w' := Next(NET, w, Sent(Agent(first), ExecuteAction(first)));
            && w'.now == 0 && w'.used == {} && w'.vault == w.vault
            && w'.token.Balance(NET.vault) == 400 && w'.token.Balance(NET.pool) == 988_000
            && w'.pool == w.pool.(invoices := w.pool.invoices[first := INVOICE.(paid := true)], paidClaims := map[CLAIM := first])
            && w'.ctrl == w.ctrl.Set(first, w.ctrl.actions[first].(windowEnd := 1_800_000, status := Executed))
  {
  }

  lemma SecondPaid(w: World, id: nat)
    requires id <= 1 && id in w.ctrl.actions && w.ctrl.actions[id] == BondedAction(Agent(id), id)
    requires id in w.pool.invoices && w.pool.invoices[id] == INVOICE && w.pool.controller == NET.controller
    requires CLAIM in w.pool.paidClaims && w.pool.actionDup == {} && w.ctrl.windowSecs == 1_800
    requires w.token.Balance(NET.vault) == 400 && w.token.Balance(NET.pool) == 988_000
    ensures var r := Execute(NET, w, Agent(id), id, 0);
            && r.Ok? && r.value.now == w.now && r.value.used == w.used && r.value.vault == w.vault
            && r.value.token.Balance(NET.vault) == 400
            && r.value.pool == w.pool.(actionDup := {id}, invoices := w.pool.invoices[id := INVOICE.(paid := true)])
            && r.value.ctrl == w.ctrl.Set(id, w.ctrl.actions[id].(windowEnd := 1_800_000, status := Executed))
  {
    assert w.pool.actionDup + {id} == {id};
  }

  lemma SecondExecuted(w: World, w1: World, first: nat)
    requires first <= 1 && BothBonded(w, 0, 1) && w1.now == 0 && w1.used == {} && w1.vault == w.vault
    requires w1.token.Balance(NET.vault) == 400 && w1.token.Balance(NET.pool) == 988_000
    requires w1.pool == w.pool.(invoices := w.pool.invoices[first := INVOICE.(paid := true)], paidClaims := map[CLAIM := first])
    requires w1.ctrl == w.ctrl.Set(first, w.ctrl.actions[first].(windowEnd := 1_800_000, status := Executed))
    ensures BothExecuted(Next(NET, w1, Sent(Agent(1 - first), ExecuteAction(1 - first))), first)
  {
    SecondPaid(w1, 1 - first);
  }

  /** The record of action `id` when both were executed. */
  function RecordOf(w: World, id: nat): Watchdog.Record {
    Watchdog.Record(id, CLAIM, 200, 1_800_000, Executed, None, "", id in w.pool.actionDup, false)
  }

  lemma RecordsAreFaithful(w: World, first: nat)
    requires first <= 1 && BothExecuted(w, first)
    ensures Faithful(w, [RecordOf(w, 0), RecordOf(w, 1)])
  {
    var actions := [RecordOf(w, 0), RecordOf(w, 1)];
    assert actions[0] in actions && actions[1] in actions;
  }

  lemma OutOfOrderInTheIndex(w: World)
    requires BothExecuted(w, 1)
    ensures IsSettled(w.ctrl, 0) && IsSettled(w.ctrl, 1) && HasLeastId(w, 0) && !HasLeastId(w, 1)
    ensures IsOpenDuplicate(w, RecordOf(w, 0), 0) && !IsOpenDuplicate(w, RecordOf(w, 1), 0)
    ensures !FirstPayersHaveLeastIds(w)
  {
    assert w.ctrl.actions[0].claim == w.ctrl.actions[1].claim == CLAIM;
    assert IsSettled(w.ctrl, 0) && IsSettled(w.ctrl, 1);
  }

  /** Executed out of id order, on a faithful projection: action 0 is a duplicate open to challenge that detection
      misses, and the collision check clears it and blames action 1, the first payer. */
  lemma OutOfOrderIsMissed() returns (h: History, actions: seq<Watchdog.Record>)
    ensures Reaches(NET, Start(), h) && Faithful(h.world, actions) && |actions| == 2
    ensures !FirstPayersHaveLeastIds(h.world)
    ensures IsOpenDuplicate(h.world, actions[0], 0) && |SortById(actions)| == 2
    ensures forall r :: r in actions ==> r !in Picks(SortById(actions), 0, 2)
    ensures !CollidesWithPaidClaim(actions, actions[0]) && CollidesWithPaidClaim(actions, actions[1])
    ensures actions[1].actionId !in h.world.pool.actionDup
  {
    h := ExecutingReaches(1);
    var w := h.world;
    actions := [RecordOf(w, 0), RecordOf(w, 1)];
    RecordsAreFaithful(w, 1);
    OutOfOrderInTheIndex(w);
    assert actions[0] in actions && actions[1] in actions;
    DetectedOnChainExactly(w, actions, actions[0], 0);
    DetectedOnChainExactly(w, actions, actions[1], 0);
    CollisionAgreesOn(NET, Start(), h, actions, actions[0]);
    CollisionAgreesOn(NET, Start(), h, actions, actions[1]);
  }

  // ---- A watchdog that is not told ------------------------------------------------------------

  ghost function After(s: WatchdogScan.State, step: WatchdogScan.Step): WatchdogScan.State {
    WatchdogScan.Advance(NET, WATCHDOG, s, step)
  }

  const EVIDENCE: Bytes := [0]

  lemma SecondIsDetected(w: World, records: seq<Watchdog.Record>)
    requires BothExecuted(w, 0) && records == [RecordOf(w, 0), RecordOf(w, 1)]
    ensures WatchdogScan.TellsBonds(w.ctrl, records)
    ensures |SortById(records)| == 2 && records[1] in Picks(SortById(records), 0, 2)
  {
    RecordsAreFaithful(w, 0);
    assert records[0] in records && records[1] in records;
    assert IsSettled(w.ctrl, 0) && w.ctrl.actions[0].claim == w.ctrl.actions[1].claim && !HasLeastId(w, 1);
    DetectedOnChainExactly(w, records, records[1], 0);
  }

  /** Executed in id order, projected, and action 1 checked again. */
  lemma Rechecking(h: History, records: seq<Watchdog.Record>)
    requires BothExecuted(h.world, 0) && records == [RecordOf(h.world, 0), RecordOf(h.world, 1)]
    ensures var s1 := After(WatchdogScan.Fresh(h), WatchdogScan.Project(records));
            && WatchdogScan.TellsBonds(h.world.ctrl, records)
            && After(s1, WatchdogScan.Recheck(1, DUPLICATE, EVIDENCE, 0))
               == WatchdogScan.State(h, records, map[], WatchdogScan.Rechecked(records[1], DUPLICATE, EVIDENCE))
  {
    SecondIsDetected(h.world, records);
    assert records[1..] == [records[1]];
    assert WatchdogScan.Find(records, 1) == Some(records[1]);
    assert WatchdogScan.StillEligible(records, records[1], DUPLICATE, EVIDENCE, 0);
  }

  ghost predicate SlashIsDue(w: World) {
    && w.now == 0 && 1 in w.ctrl.actions && w.ctrl.actions[1].status.Challenged?
    && w.ctrl.actions[1].challenger == Some(WATCHDOG) && w.ctrl.actions[1].bondPosted == 200
  }

  lemma Challenging(w: World)
    requires BothExecuted(w, 0)
    ensures var tx := Tx(WATCHDOG, 0, ChallengeAction(1, DUPLICATE, EVIDENCE));
            && Apply(NET, w, tx).Ok? && SlashIsDue(Next(NET, w, tx))
            && Next(NET, w, tx).ctrl.challengerBps == 5_000
  {
  }

  lemma SlashPays(h: History, caller: Address)
    requires Reaches(NET, Start(), h) && SlashIsDue(h.world) && h.world.ctrl.challengerBps == 5_000 && caller !in NET.Contracts()
    ensures WatchdogScan.PaidBy(NET, WATCHDOG, h.world, Sent(caller, ResolveAction(1))) == 100
  {
    var w := h.world;
    Theorems.ResolveNeverStuck(NET, Start(), h, Sent(caller, ResolveAction(1)));
    assert Agree(NET, w.ctrl.actions[1], 1, w.vault.bonds) by { ReachedIsGood(NET, Start(), h); }
  }

  function ScanSteps(records: seq<Watchdog.Record>): seq<WatchdogScan.Step> {
    [WatchdogScan.Project(records), WatchdogScan.Recheck(1, DUPLICATE, EVIDENCE, 0), WatchdogScan.SendChallenge(0, true)]
  }

  lemma Accusing(h: History, records: seq<Watchdog.Record>)
    requires BothExecuted(h.world, 0) && records == [RecordOf(h.world, 0), RecordOf(h.world, 1)]
    ensures WatchdogScan.EnabledRun(NET, WATCHDOG, WatchdogScan.Fresh(h), ScanSteps(records))
    ensures WatchdogScan.Run(NET, WATCHDOG, WatchdogScan.Fresh(h), ScanSteps(records))
         == WatchdogScan.State(Journal.Record(NET, h, Tx(WATCHDOG, 0, ChallengeAction(1, DUPLICATE, EVIDENCE))), records, map[],
                               WatchdogScan.Accused(records[1]))
  {
    var steps := ScanSteps(records);
    Rechecking(h, records);
    Challenging(h.world);
    ThreeSteps(WatchdogScan.Fresh(h), steps[0], steps[1], steps[2]);
  }

  lemma MissedThere(h: History, s: WatchdogScan.State)
    requires Reaches(NET, Start(), h) && SlashIsDue(h.world) && h.world.ctrl.challengerBps == 5_000 && s.h == h
    requires s.attempt.Accused? && s.attempt.current.actionId == 1 && s.attempt.current.bondPosted == 200
    ensures WatchdogScan.Missed(NET, WATCHDOG, s, WatchdogScan.Elsewhere(Sent(RIVAL, ResolveAction(1)))) == 100
    ensures WatchdogScan.Missed(NET, WATCHDOG, s, WatchdogScan.SendResolve(0, false)) == 100
    ensures WatchdogScan.Missed(NET, WATCHDOG, After(s, WatchdogScan.SendResolve(0, true)), WatchdogScan.RecordCatch(false)) == 100
  {
    SlashPays(h, RIVAL);
    SlashPays(h, WATCHDOG);
  }

  /** The watchdog's challenge of action 1 has landed and was heard: whichever of these follows, its reward of 100 is
      paid and no catch ever recorded. A stranger resolves; its own resolve lands unheard; or recording it fails. */
  lemma RewardsAreMissed() returns (h: History, s: WatchdogScan.State, steps: seq<WatchdogScan.Step>)
    ensures Reaches(NET, Start(), h) && WatchdogScan.EnabledRun(NET, WATCHDOG, WatchdogScan.Fresh(h), steps)
    ensures s == WatchdogScan.Run(NET, WATCHDOG, WatchdogScan.Fresh(h), steps)
    ensures WatchdogScan.Missed(NET, WATCHDOG, s, WatchdogScan.Elsewhere(Sent(RIVAL, ResolveAction(1)))) == 100
    ensures WatchdogScan.Missed(NET, WATCHDOG, s, WatchdogScan.SendResolve(0, false)) == 100
    ensures WatchdogScan.Missed(NET, WATCHDOG, After(s, WatchdogScan.SendResolve(0, true)), WatchdogScan.RecordCatch(false)) == 100
  {
    h := ExecutingReaches(0);
    var records := [RecordOf(h.world, 0), RecordOf(h.world, 1)];
    var tx := Tx(WATCHDOG, 0, ChallengeAction(1, DUPLICATE, EVIDENCE));
    steps := ScanSteps(records);
    Accusing(h, records);
    s := WatchdogScan.Run(NET, WATCHDOG, WatchdogScan.Fresh(h), steps);
    Challenging(h.world);
    OneReaches(h, tx);
    MissedThere(Journal.Record(NET, h, tx), s);
  }

  lemma ThreeSteps(s: WatchdogScan.State, a: WatchdogScan.Step, b: WatchdogScan.Step, c: WatchdogScan.Step)
    requires WatchdogScan.Enabled(NET, s, a) && WatchdogScan.Enabled(NET, After(s, a), b)
    requires WatchdogScan.Enabled(NET, After(After(s, a), b), c)
    ensures WatchdogScan.EnabledRun(NET, WATCHDOG, s, [a, b, c])
    ensures WatchdogScan.Run(NET, WATCHDOG, s, [a, b, c]) == After(After(After(s, a), b), c)
  {
    var s2 := After(After(s, a), b);
    assert [a, b, c][1..] == [b, c] && [b, c][1..] == [c] && [c][1..] == [];
    assert WatchdogScan.EnabledRun(NET, WATCHDOG, After(s2, c), []);
    assert WatchdogScan.Run(NET, WATCHDOG, s2, [c]) == After(s2, c);
    assert WatchdogScan.EnabledRun(NET, WATCHDOG, s2, [c]);
  }
}
