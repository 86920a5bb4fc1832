// `scanOnce` on a moving chain: a candidate is checked again, challenged and resolved, and its catch recorded, while
// others transact and the projection is refreshed between any two of these steps. A transaction may land without the
// service learning of it, and what follows a landed resolve may fail before the catch is recorded.
module WatchdogScan {
  import opened Common
  import opened Suite
  import opened Journal
  import opened Wiring
  import opened Custody
  import opened Reachable
  import opened Theorems
  import opened Watchdog
  import Vault
  import Bridge

  /** How far the scan is with the candidate in hand; `current` is its record as it was checked again. */
  datatype Attempt =
    | NoAttempt
    | Rechecked(current: Record, faultClass: string, evidence: Bytes)
    | Accused(current: Record)
    | Resolved(current: Record)

  /** The chain with its history, the table of action records, and the reward recorded for each catch. */
  datatype State = State(h: History, records: seq<Record>, catches: map<nat, nat>, attempt: Attempt)

  datatype Step =
    | Elsewhere(tx: Tx)
    | Project(records: seq<Record>)
    | Recheck(id: nat, faultClass: string, evidence: Bytes, now: nat)
    /** `heard`: whether the service learns that the transaction landed, if it does. */
    | SendChallenge(now: nat, heard: bool)
    | SendResolve(now: nat, heard: bool)
    /** `kept`: whether storing the transactions and reconciling, which come first, succeed. */
    | RecordCatch(kept: bool)

  function Find(records: seq<Record>, id: nat): Option<Record> {
    if records == [] then None
    else if records[0].actionId == id then Some(records[0])
    else Find(records[1..], id)
  }

  function Upsert(records: seq<Record>, r: Record): seq<Record> {
    if records == [] then [r]
    else if records[0].actionId == r.actionId then [r] + records[1..]
    else [records[0]] + Upsert(records[1..], r)
  }

  /** What `detectDeliveryContradictions` asks of an action whose attestation has usable evidence. */
  predicate OpenForDelivery(r: Record, evidence: Bytes, now: nat) {
    && r.status.Executed? && r.windowEnd >= now && !r.reservedForManual && r.challenger.None?
    && |evidence| == 120
  }

  ghost predicate StillEligible(records: seq<Record>, r: Record, faultClass: string, evidence: Bytes, now: nat) {
    var sorted := SortById(records);
    if faultClass == DUPLICATE then exists x :: x in Picks(sorted, now, |sorted|) && x.actionId == r.actionId
    else OpenForDelivery(r, evidence, now)
  }

  function ChallengeTx(watchdog: Address, attempt: Attempt, now: nat): Tx
    requires attempt.Rechecked?
  {
    Tx(watchdog, now, ChallengeAction(attempt.current.actionId, attempt.faultClass, attempt.evidence))
  }

  function ResolveTx(watchdog: Address, attempt: Attempt, now: nat): Tx
    requires attempt.Accused?
  {
    Tx(watchdog, now, ResolveAction(attempt.current.actionId))
  }

  /** The record and the reward left by a catch. */
  function Catch(watchdog: Address, s: State, current: Record): State {
    s.(records := Upsert(s.records, current.(status := ResolvedSlash, challenger := Some(watchdog))),
       catches := s.catches[current.actionId := CatchReward(current.bondPosted)],
       attempt := NoAttempt)
  }

  ghost function Advance(net: Net, watchdog: Address, s: State, step: Step): State {
    match step
    case Elsewhere(tx) => s.(h := Journal.Record(net, s.h, tx))
    case Project(records) => s.(records := records)
    case Recheck(id, faultClass, evidence, now) =>
      if !s.attempt.NoAttempt? then s
      else
        (match Find(s.records, id)
         case Some(r) =>
           if StillEligible(s.records, r, faultClass, evidence, now) then s.(attempt := Rechecked(r, faultClass, evidence)) else s
         case None => s)
    case SendChallenge(now, heard) =>
      if !s.attempt.Rechecked? then s
      else
        var tx := ChallengeTx(watchdog, s.attempt, now);
        s.(h := Journal.Record(net, s.h, tx),
           attempt := if Apply(net, s.h.world, tx).Ok? && heard then Accused(s.attempt.current) else NoAttempt)
    case SendResolve(now, heard) =>
      if !s.attempt.Accused? then s
      else
        var tx := ResolveTx(watchdog, s.attempt, now);
        s.(h := Journal.Record(net, s.h, tx),
           attempt := if Apply(net, s.h.world, tx).Ok? && heard then Resolved(s.attempt.current) else NoAttempt)
    case RecordCatch(kept) =>
      if !s.attempt.Resolved? then s
      else if kept then Catch(watchdog, s, s.attempt.current)
      else s.(attempt := NoAttempt)
  }

  // ---- What the projection is trusted for -----------------------------------------------------

  /** A record of a paid action tells the bond that was posted for it; it may be out of date in everything else. */
  ghost predicate TellsBond(c: Controller, r: Record) {
    IsPaid(r.status) ==>
      && r.actionId in c.actions && !c.actions[r.actionId].status.Initiated?
      && r.bondPosted == c.actions[r.actionId].bondPosted
  }

  ghost predicate TellsBonds(c: Controller, records: seq<Record>) {
    DistinctIds(records) && forall r :: r in records ==> TellsBond(c, r)
  }

  /** Transactions as everywhere; a refreshed projection may be late, but tells the bonds. */
  ghost predicate Enabled(net: Net, s: State, step: Step) {
    match step
    case Elsewhere(tx) => Admissible(net, s.h.world, tx)
    case Project(records) => TellsBonds(s.h.world.ctrl, records)
    case Recheck(_, _, _, _) => true
    case SendChallenge(now, _) => s.h.world.now <= now
    case SendResolve(now, _) => s.h.world.now <= now
    case RecordCatch(_) => true
  }

  // ---- Invariant ------------------------------------------------------------------------------

  /** The chain slashed action `id` on the watchdog's challenge, and `reward` is what it paid for it. */
  ghost predicate Caught(c: Controller, watchdog: Address, id: nat, reward: nat) {
    && id in c.actions
    && c.actions[id].status.ResolvedSlash?
    && c.actions[id].challenger == Some(watchdog)
    && reward == Vault.ChallengerShare(c.actions[id].bondPosted, 5_000)
  }

  ghost predicate InHand(c: Controller, watchdog: Address, catches: map<nat, nat>, attempt: Attempt) {
    match attempt
    case NoAttempt => true
    case Rechecked(r, _, _) => IsPaid(r.status) && TellsBond(c, r)
    case Accused(r) =>
      && IsPaid(r.status) && TellsBond(c, r)
      && c.actions[r.actionId].challenger == Some(watchdog)
      && r.actionId !in catches
    case Resolved(r) =>
      && IsPaid(r.status) && TellsBond(c, r)
      && Caught(c, watchdog, r.actionId, CatchReward(r.bondPosted))
      && r.actionId !in catches
  }

  ghost predicate Books(c: Controller, watchdog: Address, s: State) {
    && TellsBonds(c, s.records)
    && InHand(c, watchdog, s.catches, s.attempt)
    && forall id :: id in s.catches ==> Caught(c, watchdog, id, s.catches[id])
  }

  /** Wired and coupled, with the share the script deploys. */
  ghost predicate Running(net: Net, w: World) {
    Wired(net, w) && NoAllowances(net, w.token) && Coupled(net, w) && w.ctrl.challengerBps == 5_000
  }

  ghost predicate Fair(net: Net, watchdog: Address, s: State) {
    Running(net, s.h.world) && Books(s.h.world.ctrl, watchdog, s)
  }

  /** Actions keep the bond and the challenger they have, never lose their bond and end once. */
  ghost predicate Advances(c: Controller, c': Controller) {
    forall id :: id in c.actions ==>
      && id in c'.actions
      && (!c.actions[id].status.Initiated? ==>
            !c'.actions[id].status.Initiated? && c'.actions[id].bondPosted == c.actions[id].bondPosted)
      && (c.actions[id].challenger.Some? ==> c'.actions[id].challenger == c.actions[id].challenger)
      && (c.actions[id].status.ResolvedSlash? ==> c'.actions[id] == c.actions[id])
  }

  lemma EntryAdvances(net: Net, w: World, w': World, e: Entry)
    requires Coupled(net, w) && Explains(net, w, w', e) && Turns(w.ctrl, w'.ctrl, e.event)
    ensures Advances(w.ctrl, w'.ctrl)
  {
    forall id | id in w.ctrl.actions
      ensures w.ctrl.actions[id].challenger.Some? ==> w'.ctrl.actions[id].challenger == w.ctrl.actions[id].challenger
    {
      assert Agree(net, w.ctrl.actions[id], id, w.vault.bonds);
    }
  }

  lemma ChainAdvances(net: Net, w: World, tx: Tx)
    requires Running(net, w) && Admissible(net, w, tx)
    ensures Running(net, Suite.Next(net, w, tx)) && Advances(w.ctrl, Suite.Next(net, w, tx).ctrl)
  {
    var w' := Suite.Next(net, w, tx);
    var success, e := StepCases(net, w, tx);
    if success {
      ExplainedKeepsWired(net, w, w', e);
      StepKeepsCoupled(net, w, w', e);
      EntryAdvances(net, w, w', e);
    } else {
      assert w'.ctrl == w.ctrl && w'.vault == w.vault && w'.token == w.token && w'.pool == w.pool;
    }
  }

  /** What is known of bonds and catches outlives any progress of the chain. */
  lemma AdvancingKeeps(c: Controller, c': Controller, watchdog: Address, s: State)
    requires Books(c, watchdog, s) && Advances(c, c')
    ensures Books(c', watchdog, s)
  {
  }

  lemma {:induction false} FindFinds(records: seq<Record>, id: nat, x: Record)
    requires DistinctIds(records) && x in records && x.actionId == id
    ensures Find(records, id) == Some(x)
  {
    if records[0].actionId == id {
      var k :| 0 <= k < |records| && records[k] == x;
    } else {
      FindFinds(records[1..], id, x);
    }
  }

  lemma {:induction false} FoundIsThere(records: seq<Record>, id: nat)
    ensures Find(records, id).Some? ==> Find(records, id).value in records && Find(records, id).value.actionId == id
  {
    if records != [] {
      FoundIsThere(records[1..], id);
    }
  }

  lemma {:induction false} UpsertKeepsDistinct(records: seq<Record>, r: Record)
    requires DistinctIds(records)
    ensures DistinctIds(Upsert(records, r))
    ensures forall x :: x in Upsert(records, r) ==> x == r || x in records
  {
    if records != [] && records[0].actionId != r.actionId {
      UpsertKeepsDistinct(records[1..], r);
      var rest := Upsert(records[1..], r);
      forall k | 0 <= k < |rest| ensures rest[k].actionId != records[0].actionId {
        assert rest[k] in rest;
      }
    }
  }

  /** A candidate that is still eligible is recorded as executed. */
  lemma EligibleIsExecuted(records: seq<Record>, r: Record, faultClass: string, evidence: Bytes, now: nat)
    requires DistinctIds(records) && Find(records, r.actionId) == Some(r) && StillEligible(records, r, faultClass, evidence, now)
    ensures r.status.Executed?
  {
    if faultClass == DUPLICATE {
      var sorted := SortById(records);
      var x :| x in Picks(sorted, now, |sorted|) && x.actionId == r.actionId;
      SortByIdSorts(records);
      PickedExactly(sorted, now, |sorted|, x);
      FindFinds(records, r.actionId, x);
    }
  }

  lemma {:induction false} UpsertWrites(records: seq<Record>, r: Record, id: nat)
    ensures Find(Upsert(records, r), id) == if id == r.actionId then Some(r) else Find(records, id)
  {
    if records != [] {
      UpsertWrites(records[1..], r, id);
      if records[0].actionId == r.actionId {
        assert ([r] + records[1..])[1..] == records[1..];
      } else {
        assert ([records[0]] + Upsert(records[1..], r))[1..] == Upsert(records[1..], r);
      }
    }
  }

  /** The row a catch writes is the record in hand, slashed by the watchdog's challenge, as the chain has it: status,
      challenger and bond are those of the action. Every other row stays as it was. */
  lemma CatchIsWritten(net: Net, watchdog: Address, s: State, id: nat)
    requires Fair(net, watchdog, s) && s.attempt.Resolved?
    ensures var current, s' := s.attempt.current, Advance(net, watchdog, s, RecordCatch(true));
            && Find(s'.records, current.actionId) == Some(current.(status := ResolvedSlash, challenger := Some(watchdog)))
            && current.actionId in s'.h.world.ctrl.actions
            && (var row, a := Find(s'.records, current.actionId).value, s'.h.world.ctrl.actions[current.actionId];
                row.status == a.status == ResolvedSlash && row.challenger == a.challenger == Some(watchdog)
                && row.bondPosted == a.bondPosted)
            && (id != current.actionId ==> Find(s'.records, id) == Find(s.records, id))
            && s'.catches == s.catches[current.actionId := current.bondPosted / 2] && s'.attempt == NoAttempt && s'.h == s.h
  {
    var row := s.attempt.current.(status := ResolvedSlash, challenger := Some(watchdog));
    UpsertWrites(s.records, row, s.attempt.current.actionId);
    UpsertWrites(s.records, row, id);
  }

  /** A candidate is kept in hand exactly when its row exists and is executed, unchallenged, set aside for nobody and
      inside its window, and is a proven duplicate of a claim that a smaller id paid, or has 120 bytes of evidence. */
  lemma RecheckExactly(net: Net, watchdog: Address, s: State, id: nat, faultClass: string, evidence: Bytes, now: nat)
    requires DistinctIds(s.records) && s.attempt.NoAttempt?
    ensures var s' := Advance(net, watchdog, s, Recheck(id, faultClass, evidence, now));
            && s' == s.(attempt := s'.attempt)
            && (s'.attempt == NoAttempt || (Find(s.records, id).Some? && s'.attempt == Rechecked(Find(s.records, id).value, faultClass, evidence)))
            && (s'.attempt != NoAttempt <==>
                  && Find(s.records, id).Some?
                  && (var r := Find(s.records, id).value;
                      && r.status == Executed && r.challenger == None && !r.reservedForManual && now <= r.windowEnd
                      && (if faultClass == "duplicate_claim" then r.duplicateProven && EarlierIdPaid(s.records, id, r.claim)
                          else |evidence| == 120)))
  {
    FoundIsThere(s.records, id);
    if Find(s.records, id).Some? && faultClass == DUPLICATE {
      DuplicateStillEligible(s.records, Find(s.records, id).value, evidence, now);
    }
  }

  lemma DuplicateStillEligible(records: seq<Record>, r: Record, evidence: Bytes, now: nat)
    requires DistinctIds(records) && r in records
    ensures StillEligible(records, r, DUPLICATE, evidence, now)
       <==> Challengeable(r, now) && EarlierIdPaid(records, r.actionId, r.claim)
  {
    var sorted := SortById(records);
    DetectedExactly(records, now, r);
    forall x | x in Picks(sorted, now, |sorted|) && x.actionId == r.actionId ensures x == r {
      SortByIdSorts(records);
      PickedExactly(sorted, now, |sorted|, x);
      FindFinds(records, r.actionId, x);
      FindFinds(records, r.actionId, r);
    }
  }

  /** A challenge that lands is the watchdog's, on the action in hand, with the class and evidence it was checked for. */
  lemma ChallengeNames(net: Net, watchdog: Address, s: State, now: nat)
    requires s.attempt.Rechecked? && Apply(net, s.h.world, ChallengeTx(watchdog, s.attempt, now)).Ok?
    ensures var id, c' := s.attempt.current.actionId, Advance(net, watchdog, s, SendChallenge(now, true)).h.world.ctrl;
            && id in c'.actions
            && c'.actions[id].status == Challenged && c'.actions[id].challenger == Some(watchdog)
            && c'.actions[id].faultClass == s.attempt.faultClass && c'.actions[id].evidence == s.attempt.evidence
  {
  }

  lemma RecheckKeepsFair(net: Net, watchdog: Address, s: State, step: Step)
    requires Fair(net, watchdog, s) && step.Recheck?
    ensures Fair(net, watchdog, Advance(net, watchdog, s, step))
  {
    FoundIsThere(s.records, step.id);
    if Advance(net, watchdog, s, step) != s {
      EligibleIsExecuted(s.records, Find(s.records, step.id).value, step.faultClass, step.evidence, step.now);
    }
  }

  lemma ChallengeKeepsFair(net: Net, watchdog: Address, s: State, now: nat, heard: bool)
    requires Fair(net, watchdog, s) && watchdog !in net.Contracts() && s.attempt.Rechecked? && s.h.world.now <= now
    ensures Fair(net, watchdog, Advance(net, watchdog, s, SendChallenge(now, heard)))
  {
    var tx, current := ChallengeTx(watchdog, s.attempt, now), s.attempt.current;
    var c, c' := s.h.world.ctrl, Suite.Next(net, s.h.world, tx).ctrl;
    ChainAdvances(net, s.h.world, tx);
    AdvancingKeeps(c, c', watchdog, s);
    if Apply(net, s.h.world, tx).Ok? {
      ChallengeLands(net, s.h.world, tx);
      assert current.actionId in s.catches ==> Caught(c, watchdog, current.actionId, s.catches[current.actionId]);
    }
  }

  lemma ChallengeLands(net: Net, w: World, tx: Tx)
    requires tx.call.ChallengeAction? && Apply(net, w, tx).Ok?
    ensures tx.call.id in w.ctrl.actions && w.ctrl.actions[tx.call.id].status.Executed?
    ensures tx.call.id in Suite.Next(net, w, tx).ctrl.actions
    ensures Suite.Next(net, w, tx).ctrl.actions[tx.call.id].challenger == Some(tx.caller)
  {
  }

  /** If the watchdog's own resolve succeeds, it is a slash that pays it exactly the reward about to be recorded. */
  lemma ResolveIsSlash(net: Net, watchdog: Address, w: World, current: Record, now: nat)
    requires Running(net, w) && watchdog !in net.Contracts() && w.now <= now
    requires IsPaid(current.status) && TellsBond(w.ctrl, current) && w.ctrl.actions[current.actionId].challenger == Some(watchdog)
    requires Apply(net, w, ResolveTx(watchdog, Accused(current), now)).Ok?
    ensures var tx := ResolveTx(watchdog, Accused(current), now);
            && Caught(Suite.Next(net, w, tx).ctrl, watchdog, current.actionId, CatchReward(current.bondPosted))
            && Amount(Earned(watchdog), EventOf(net, w, tx)) == CatchReward(current.bondPosted)
  {
    var id, tx := current.actionId, ResolveTx(watchdog, Accused(current), now);
    assert Agree(net, w.ctrl.actions[id], id, w.vault.bonds);
    SlashExplained(net, w, Apply(net, w, tx).value, id);
    Bridge.HalfOf(current.bondPosted);
  }

  lemma CatchKeepsBooks(c: Controller, watchdog: Address, s: State, current: Record)
    requires Books(c, watchdog, s) && TellsBond(c, current) && IsPaid(current.status)
    requires Caught(c, watchdog, current.actionId, CatchReward(current.bondPosted))
    ensures Books(c, watchdog, Catch(watchdog, s, current))
  {
    UpsertKeepsDistinct(s.records, current.(status := ResolvedSlash, challenger := Some(watchdog)));
  }

  lemma ResolveKeepsFair(net: Net, watchdog: Address, s: State, now: nat, heard: bool)
    requires Fair(net, watchdog, s) && watchdog !in net.Contracts() && s.attempt.Accused? && s.h.world.now <= now
    ensures Fair(net, watchdog, Advance(net, watchdog, s, SendResolve(now, heard)))
  {
    var tx := ResolveTx(watchdog, s.attempt, now);
    ChainAdvances(net, s.h.world, tx);
    AdvancingKeeps(s.h.world.ctrl, Suite.Next(net, s.h.world, tx).ctrl, watchdog, s);
    if Apply(net, s.h.world, tx).Ok? {
      ResolveIsSlash(net, watchdog, s.h.world, s.attempt.current, now);
    }
  }

  lemma StepKeepsFair(net: Net, watchdog: Address, s: State, step: Step)
    requires Fair(net, watchdog, s) && watchdog !in net.Contracts() && Enabled(net, s, step)
    ensures Fair(net, watchdog, Advance(net, watchdog, s, step))
  {
    match step
    case Elsewhere(tx) =>
      ChainAdvances(net, s.h.world, tx);
      AdvancingKeeps(s.h.world.ctrl, Suite.Next(net, s.h.world, tx).ctrl, watchdog, s);
    case Project(_) =>
    case Recheck(_, _, _, _) => RecheckKeepsFair(net, watchdog, s, step);
    case SendChallenge(now, heard) =>
      if s.attempt.Rechecked? { ChallengeKeepsFair(net, watchdog, s, now, heard); }
    case SendResolve(now, heard) =>
      if s.attempt.Accused? { ResolveKeepsFair(net, watchdog, s, now, heard); }
    case RecordCatch(kept) =>
      if s.attempt.Resolved? && kept { CatchKeepsBooks(s.h.world.ctrl, watchdog, s, s.attempt.current); }
  }

  // ---- Whole scans ----------------------------------------------------------------------------

  ghost function Run(net: Net, watchdog: Address, s: State, steps: seq<Step>): State
    decreases steps
  {
    if steps == [] then s else Run(net, watchdog, Advance(net, watchdog, s, steps[0]), steps[1..])
  }

  ghost predicate EnabledRun(net: Net, watchdog: Address, s: State, steps: seq<Step>)
    decreases steps
  {
    steps == [] || (Enabled(net, s, steps[0]) && EnabledRun(net, watchdog, Advance(net, watchdog, s, steps[0]), steps[1..]))
  }

  /** The reward of a resolve that landed, until its catch is recorded. */
  function InFlight(s: State): nat {
    if s.attempt.Resolved? then CatchReward(s.attempt.current.bondPosted) else 0
  }

  /** What the chain paid the watchdog beyond what its catches say, or are about to. */
  ghost function Gap(watchdog: Address, s: State): int {
    Sum(Earned(watchdog), s.h.journal) - Total(s.catches) - InFlight(s)
  }

  ghost function PaidBy(net: Net, watchdog: Address, w: World, tx: Tx): int {
    if Apply(net, w, tx).Ok? then Amount(Earned(watchdog), EventOf(net, w, tx)) else 0
  }

  /** The reward a step lets slip: paid by a transaction outside the scan, by a resolve of the scan that landed
      unheard, or by one whose catch is not recorded. */
  ghost function Missed(net: Net, watchdog: Address, s: State, step: Step): int {
    match step
    case Elsewhere(tx) => PaidBy(net, watchdog, s.h.world, tx)
    case SendResolve(now, heard) =>
      if s.attempt.Accused? && !heard then PaidBy(net, watchdog, s.h.world, ResolveTx(watchdog, s.attempt, now)) else 0
    case RecordCatch(kept) => if kept then 0 else InFlight(s)
    case _ => 0
  }

  lemma ResolveGap(net: Net, watchdog: Address, s: State, now: nat, heard: bool)
    requires Fair(net, watchdog, s) && watchdog !in net.Contracts() && s.h.world.now <= now && s.attempt.Accused?
    ensures var step := SendResolve(now, heard);
            && Gap(watchdog, Advance(net, watchdog, s, step)) == Gap(watchdog, s) + Missed(net, watchdog, s, step)
            && Missed(net, watchdog, s, step) >= 0
  {
    var tx := ResolveTx(watchdog, s.attempt, now);
    RecordSums(net, watchdog, s.h, tx);
    if Apply(net, s.h.world, tx).Ok? {
      ResolveIsSlash(net, watchdog, s.h.world, s.attempt.current, now);
    }
  }

  lemma PaymentsOnly(net: Net, watchdog: Address, w: World, tx: Tx)
    ensures PaidBy(net, watchdog, w, tx) >= 0
    ensures tx.call.ChallengeAction? ==> PaidBy(net, watchdog, w, tx) == 0
  {
  }

  lemma ElsewhereGap(net: Net, watchdog: Address, s: State, tx: Tx)
    ensures Gap(watchdog, s.(h := Journal.Record(net, s.h, tx))) == Gap(watchdog, s) + PaidBy(net, watchdog, s.h.world, tx)
  {
    RecordSums(net, watchdog, s.h, tx);
  }

  lemma ChallengeGap(net: Net, watchdog: Address, s: State, now: nat, heard: bool)
    requires s.attempt.Rechecked?
    ensures Gap(watchdog, Advance(net, watchdog, s, SendChallenge(now, heard))) == Gap(watchdog, s)
  {
    var tx := ChallengeTx(watchdog, s.attempt, now);
    ElsewhereGap(net, watchdog, s, tx);
    PaymentsOnly(net, watchdog, s.h.world, tx);
  }

  lemma RecordGap(watchdog: Address, s: State)
    requires s.attempt.Resolved? && s.attempt.current.actionId !in s.catches
    ensures Gap(watchdog, Catch(watchdog, s, s.attempt.current)) == Gap(watchdog, s)
  {
    TotalUpdate(s.catches, s.attempt.current.actionId, CatchReward(s.attempt.current.bondPosted));
  }

  /** The books fall behind the chain exactly by the rewards that steps let slip. */
  lemma GapExactly(net: Net, watchdog: Address, s: State, step: Step)
    requires Fair(net, watchdog, s) && watchdog !in net.Contracts() && Enabled(net, s, step)
    ensures Gap(watchdog, Advance(net, watchdog, s, step)) == Gap(watchdog, s) + Missed(net, watchdog, s, step)
    ensures Missed(net, watchdog, s, step) >= 0
  {
    match step
    case Elsewhere(tx) =>
      ElsewhereGap(net, watchdog, s, tx);
      PaymentsOnly(net, watchdog, s.h.world, tx);
    case SendChallenge(now, heard) =>
      if s.attempt.Rechecked? { ChallengeGap(net, watchdog, s, now, heard); }
    case SendResolve(now, heard) =>
      if s.attempt.Accused? { ResolveGap(net, watchdog, s, now, heard); }
    case RecordCatch(kept) =>
      if s.attempt.Resolved? && kept { RecordGap(watchdog, s); }
    case _ =>
  }

  /** Everything a run of steps lets slip. */
  ghost function MissedOver(net: Net, watchdog: Address, s: State, steps: seq<Step>): int
    decreases steps
  {
    if steps == [] then 0
    else Missed(net, watchdog, s, steps[0]) + MissedOver(net, watchdog, Advance(net, watchdog, s, steps[0]), steps[1..])
  }

  lemma RecordSums(net: Net, watchdog: Address, h: History, tx: Tx)
    ensures Sum(Earned(watchdog), Journal.Record(net, h, tx).journal) == Sum(Earned(watchdog), h.journal)
         + PaidBy(net, watchdog, h.world, tx)
  {
    if Apply(net, h.world, tx).Ok? {
      SumSnoc(Earned(watchdog), h.journal, Entry(tx.caller, tx.now, EventOf(net, h.world, tx)));
    }
  }

  lemma {:induction false} RunKeepsFair(net: Net, watchdog: Address, s: State, steps: seq<Step>)
    requires Fair(net, watchdog, s) && watchdog !in net.Contracts() && EnabledRun(net, watchdog, s, steps)
    ensures Fair(net, watchdog, Run(net, watchdog, s, steps))
    ensures Gap(watchdog, Run(net, watchdog, s, steps)) == Gap(watchdog, s) + MissedOver(net, watchdog, s, steps)
    ensures MissedOver(net, watchdog, s, steps) >= 0
    decreases steps
  {
    if steps != [] {
      StepKeepsFair(net, watchdog, s, steps[0]);
      GapExactly(net, watchdog, s, steps[0]);
      RunKeepsFair(net, watchdog, Advance(net, watchdog, s, steps[0]), steps[1..]);
    }
  }

  /** A watchdog that starts on a running chain, with nothing read and nothing caught. */
  function Fresh(h: History): State {
    State(h, [], map[], NoAttempt)
  }

  lemma FreshIsFair(net: Net, start: World, h: History, watchdog: Address)
    requires Reaches(net, start, h) && h.world.ctrl.challengerBps == 5_000
    ensures Fair(net, watchdog, Fresh(h))
  {
    ReachedMoney(net, start, h);
  }

  /** Whatever happens between its steps, and however late its projection is: every recorded catch is an action the
      chain slashed on the watchdog's challenge, with the reward paid for it, and the catches together, with what is
      in flight and what was let slip, say what the chain has paid the watchdog since it started. */
  lemma CatchesAreSlashes(net: Net, start: World, h: History, watchdog: Address, steps: seq<Step>)
    requires Reaches(net, start, h) && h.world.ctrl.challengerBps == 5_000 && watchdog !in net.Contracts()
    requires EnabledRun(net, watchdog, Fresh(h), steps)
    ensures var s := Run(net, watchdog, Fresh(h), steps);
            && (forall id :: id in s.catches ==> Caught(s.h.world.ctrl, watchdog, id, s.catches[id]))
            && MissedOver(net, watchdog, Fresh(h), steps) >= 0
            && Sum(Earned(watchdog), s.h.journal) - Sum(Earned(watchdog), h.journal)
               == Total(s.catches) + InFlight(s) + MissedOver(net, watchdog, Fresh(h), steps)
  {
    FreshIsFair(net, start, h, watchdog);
    RunKeepsFair(net, watchdog, Fresh(h), steps);
  }

  /** No action is caught twice: whatever the watchdog has challenged or resolved, and not yet recorded, has no catch. */
  lemma NeverCaughtTwice(net: Net, start: World, h: History, watchdog: Address, steps: seq<Step>)
    requires Reaches(net, start, h) && h.world.ctrl.challengerBps == 5_000 && watchdog !in net.Contracts()
    requires EnabledRun(net, watchdog, Fresh(h), steps)
    requires Run(net, watchdog, Fresh(h), steps).attempt.Accused? || Run(net, watchdog, Fresh(h), steps).attempt.Resolved?
    ensures Run(net, watchdog, Fresh(h), steps).attempt.current.actionId !in Run(net, watchdog, Fresh(h), steps).catches
  {
    FreshIsFair(net, start, h, watchdog);
    RunKeepsFair(net, watchdog, Fresh(h), steps);
  }

  /** The service as it runs: its table, its catches, and the chain's answers to what it sends. */
  class WatchdogService {
    const net: Net
    const watchdog: Address
    var records: seq<Record>
    var catches: map<nat, nat>
    var attempt: Attempt
    ghost var h: History

    ghost function View(): State
      reads this
    {
      State(h, records, catches, attempt)
    }

    constructor (net: Net, watchdog: Address, ghost h: History)
      ensures View() == Fresh(h) && this.net == net && this.watchdog == watchdog
    {
      this.net, this.watchdog, this.h := net, watchdog, h;
      records, catches, attempt := [], map[], NoAttempt;
    }

    /** The candidate's record is read again, and kept in hand if a fresh detection still returns it. */
    method CheckAgain(id: nat, faultClass: string, evidence: Bytes, now: nat)
      requires attempt.NoAttempt?
      modifies this`attempt
      ensures View() == Advance(net, watchdog, old(View()), Recheck(id, faultClass, evidence, now))
    {
      FoundIsThere(records, id);
      var current := Find(records, id);
      if current.None? {
        return;
      }
      var stillEligible := false;
      if faultClass == DUPLICATE {
        var duplicates := DetectDuplicateActions(records, now);
        for i := 0 to |duplicates|
          invariant stillEligible <==> exists j :: 0 <= j < i && duplicates[j].actionId == id
        {
          if duplicates[i].actionId == id {
            stillEligible := true;
          }
        }
        assert stillEligible <==> exists x :: x in duplicates && x.actionId == id;
      } else {
        stillEligible := OpenForDelivery(current.value, evidence, now);
      }
      if stillEligible {
        attempt := Rechecked(current.value, faultClass, evidence);
      }
    }

    /** `ok`: the service was told that the challenge landed. */
    method ChallengeAnswered(now: nat, ok: bool)
      requires attempt.Rechecked? && (ok ==> Apply(net, h.world, ChallengeTx(watchdog, attempt, now)).Ok?)
      modifies this
      ensures View() == Advance(net, watchdog, old(View()), SendChallenge(now, ok))
    {
      h := Journal.Record(net, h, ChallengeTx(watchdog, attempt, now));
      attempt := if ok then Accused(attempt.current) else NoAttempt;
    }

    method ResolveAnswered(now: nat, ok: bool)
      requires attempt.Accused? && (ok ==> Apply(net, h.world, ResolveTx(watchdog, attempt, now)).Ok?)
      modifies this
      ensures View() == Advance(net, watchdog, old(View()), SendResolve(now, ok))
    {
      h := Journal.Record(net, h, ResolveTx(watchdog, attempt, now));
      attempt := if ok then Resolved(attempt.current) else NoAttempt;
    }

    /** A resolved challenge is recorded as a catch, with half of the bond as its reward, unless what precedes the
        recording fails. */
    method Finish(kept: bool)
      requires attempt.Resolved?
      modifies this
      ensures View() == Advance(net, watchdog, old(View()), RecordCatch(kept))
      ensures kept ==>
                var current := old(attempt.current);
                && records == Upsert(old(records), current.(status := ResolvedSlash, challenger := Some(watchdog)))
                && Find(records, current.actionId) == Some(current.(status := ResolvedSlash, challenger := Some(watchdog)))
      ensures !kept ==> records == old(records) && catches == old(catches)
    {
      ghost var row := attempt.current.(status := ResolvedSlash, challenger := Some(watchdog));
      UpsertWrites(records, row, row.actionId);
      var current := attempt.current;
      attempt := NoAttempt;
      if kept {
        records := Upsert(records, current.(status := ResolvedSlash, challenger := Some(watchdog)));
        catches := catches[current.actionId := CatchReward(current.bondPosted)];
      }
    }
  }
}
