// Budgets over whole runs. Between a check and its record a caller waits for the chain, so several granted spends of
// one account may be outstanding at once; each is recorded later, or given up.
module SpendBudget {
  import opened SpendGuard

  /** `pending`: the estimates an account was granted and has neither recorded nor given up. */
  datatype State = State(log: seq<Spend>, pending: map<string, seq<nat>>, clock: int)

  datatype Step =
    | Assert(account: string, estimate: nat, now: int)
    | Record(account: string, index: nat, now: int)
    | Abandon(account: string, index: nat)

  function Outstanding(s: State, account: string): seq<nat> {
    if account in s.pending then s.pending[account] else []
  }

  /** The clock never runs back, and only what was granted is recorded or given up. */
  predicate Enabled(s: State, step: Step) {
    match step
    case Assert(_, _, now) => s.clock <= now
    case Record(account, index, now) => s.clock <= now && index < |Outstanding(s, account)|
    case Abandon(account, index) => index < |Outstanding(s, account)|
  }

  function Without(grants: seq<nat>, index: nat): seq<nat>
    requires index < |grants|
  {
    grants[..index] + grants[index + 1..]
  }

  function Next(budget: Budget, s: State, step: Step): State
    requires Enabled(s, step)
  {
    match step
    case Assert(account, estimate, now) =>
      if Permitted(budget.For(account), s.log, account, estimate, now)
      then State(s.log, s.pending[account := Outstanding(s, account) + [estimate]], now)
      else s.(clock := now)
    case Record(account, index, now) =>
      var grants := Outstanding(s, account);
      State(s.log + [Spend(account, grants[index], now)], s.pending[account := Without(grants, index)], now)
    case Abandon(account, index) =>
      s.(pending := s.pending[account := Without(Outstanding(s, account), index)])
  }

  predicate EnabledRun(budget: Budget, s: State, steps: seq<Step>)
    decreases steps
  {
    steps == [] || (Enabled(s, steps[0]) && EnabledRun(budget, Next(budget, s, steps[0]), steps[1..]))
  }

  function Run(budget: Budget, s: State, steps: seq<Step>): State
    requires EnabledRun(budget, s, steps)
    decreases steps
  {
    if steps == [] then s else Run(budget, Next(budget, s, steps[0]), steps[1..])
  }

  /** A caller of one account at a time: it asks only with nothing outstanding. */
  predicate Serialised(s: State, step: Step) {
    step.Assert? ==> Outstanding(s, step.account) == []
  }

  predicate SerialisedRun(budget: Budget, s: State, steps: seq<Step>)
    decreases steps
  {
    steps == [] ||
    (Enabled(s, steps[0]) && Serialised(s, steps[0]) && SerialisedRun(budget, Next(budget, s, steps[0]), steps[1..]))
  }

  // ---- Budgets --------------------------------------------------------------------------------

  ghost predicate InBudget(l: Limits, log: seq<Spend>, account: string, k: Kind, span: Span, to: int) {
    Between(k, log, account, to - Milliseconds(span), to) <= Limit(l, k, span)
  }

  /** For every account, kind and span, every window that ends at any instant holds no more than its limit. */
  ghost predicate AllInBudget(budget: Budget, log: seq<Spend>) {
    forall a, k, span, to :: InBudget(budget.For(a), log, a, k, span, to)
  }

  function Load(k: Kind, grants: seq<nat>): nat {
    if grants == [] then 0 else Load(k, grants[..|grants| - 1]) + Weight(k, grants[|grants| - 1])
  }

  /** What the account spent in the window so far, and all it may still record, stay within the limit together. */
  predicate Fits(l: Limits, log: seq<Spend>, grants: seq<nat>, account: string, k: Kind, span: Span, now: int) {
    Since(k, log, account, now - Milliseconds(span)) + Load(k, grants) <= Limit(l, k, span)
  }

  ghost predicate AllFit(budget: Budget, s: State) {
    forall a, k, span :: Fits(budget.For(a), s.log, Outstanding(s, a), a, k, span, s.clock)
  }

  lemma {:induction false} LoadAppend(k: Kind, a: seq<nat>, b: seq<nat>)
    ensures Load(k, a + b) == Load(k, a) + Load(k, b)
  {
    if b == [] {
      assert a + b == a;
    } else {
      assert (a + b)[..|a + b| - 1] == a + b[..|b| - 1];
      LoadAppend(k, a, b[..|b| - 1]);
    }
  }

  lemma LoadOne(k: Kind, motes: nat)
    ensures Load(k, [motes]) == Weight(k, motes)
  {
    assert [motes][..0] == [];
  }

  lemma LoadWithout(k: Kind, grants: seq<nat>, index: nat)
    requires index < |grants|
    ensures Load(k, grants) == Load(k, Without(grants, index)) + Weight(k, grants[index])
  {
    var front, back := grants[..index], grants[index + 1..];
    assert grants == front + ([grants[index]] + back);
    LoadAppend(k, front, [grants[index]] + back);
    LoadAppend(k, [grants[index]], back);
    LoadAppend(k, front, back);
    LoadOne(k, grants[index]);
  }

  lemma {:induction false} BetweenIsSince(k: Kind, log: seq<Spend>, account: string, from: int, to: int)
    requires UpTo(log, to)
    ensures Between(k, log, account, from, to) == Since(k, log, account, from)
  {
    if log != [] {
      BetweenIsSince(k, log[..|log| - 1], account, from, to);
    }
  }

  lemma {:induction false} SinceShrinks(k: Kind, log: seq<Spend>, account: string, from: int, later: int)
    requires from <= later
    ensures Since(k, log, account, later) <= Since(k, log, account, from)
  {
    if log != [] {
      SinceShrinks(k, log[..|log| - 1], account, from, later);
    }
  }

  function Counted(k: Kind, x: Spend, account: string, from: int, to: int): nat {
    if x.account == account && from <= x.timestamp <= to then Weight(k, x.motes) else 0
  }

  lemma BetweenSnoc(k: Kind, log: seq<Spend>, x: Spend, account: string, from: int, to: int)
    ensures Between(k, log + [x], account, from, to) == Between(k, log, account, from, to) + Counted(k, x, account, from, to)
  {
    assert (log + [x])[..|log|] == log;
  }

  lemma SinceSnoc(k: Kind, log: seq<Spend>, x: Spend, account: string, from: int)
    requires x.account == account && from <= x.timestamp
    ensures Since(k, log + [x], account, from) == Since(k, log, account, from) + Weight(k, x.motes)
  {
    assert (log + [x])[..|log|] == log;
  }

  /** Recording one of several grants that fit keeps the rest fitting. */
  lemma RecordFits(l: Limits, log: seq<Spend>, grants: seq<nat>, index: nat, account: string, k: Kind, span: Span, clock: int, now: int)
    requires index < |grants| && clock <= now && UpTo(log, clock) && Fits(l, log, grants, account, k, span, clock)
    ensures Fits(l, log + [Spend(account, grants[index], now)], Without(grants, index), account, k, span, now)
  {
    var x, from := Spend(account, grants[index], now), now - Milliseconds(span);
    LoadWithout(k, grants, index);
    BetweenSnoc(k, log, x, account, from, now);
    BetweenIsSince(k, log + [x], account, from, now);
    BetweenIsSince(k, log, account, from, now);
    SinceShrinks(k, log, account, clock - Milliseconds(span), from);
  }

  lemma OthersFit(l: Limits, log: seq<Spend>, x: Spend, grants: seq<nat>, account: string, k: Kind, span: Span, clock: int)
    requires clock <= x.timestamp && UpTo(log, clock) && x.account != account && Fits(l, log, grants, account, k, span, clock)
    ensures Fits(l, log + [x], grants, account, k, span, x.timestamp)
  {
    var from := x.timestamp - Milliseconds(span);
    BetweenSnoc(k, log, x, account, from, x.timestamp);
    BetweenIsSince(k, log + [x], account, from, x.timestamp);
    BetweenIsSince(k, log, account, from, x.timestamp);
    SinceShrinks(k, log, account, clock - Milliseconds(span), from);
  }

  /** A grant that fits, once recorded, overfills no window. */
  lemma RecordInBudget(l: Limits, log: seq<Spend>, grants: seq<nat>, index: nat, account: string, k: Kind, span: Span,
                       clock: int, now: int, to: int)
    requires index < |grants| && clock <= now && UpTo(log, clock) && Fits(l, log, grants, account, k, span, clock)
    requires InBudget(l, log, account, k, span, to)
    ensures InBudget(l, log + [Spend(account, grants[index], now)], account, k, span, to)
  {
    BetweenSnoc(k, log, Spend(account, grants[index], now), account, to - Milliseconds(span), to);
    if now <= to {
      LoadWithout(k, grants, index);
      BetweenIsSince(k, log, account, to - Milliseconds(span), to);
      SinceShrinks(k, log, account, clock - Milliseconds(span), to - Milliseconds(span));
    }
  }

  ghost predicate Good(budget: Budget, s: State) {
    UpTo(s.log, s.clock) && AllInBudget(budget, s.log) && AllFit(budget, s)
  }

  lemma RecordKeepsGood(budget: Budget, s: State, step: Step)
    requires Good(budget, s) && Enabled(s, step) && step.Record?
    ensures Good(budget, Next(budget, s, step))
  {
    var s', grants := Next(budget, s, step), Outstanding(s, step.account);
    var x := Spend(step.account, grants[step.index], step.now);
    forall a, k, span ensures Fits(budget.For(a), s'.log, Outstanding(s', a), a, k, span, s'.clock) {
      assert Fits(budget.For(a), s.log, Outstanding(s, a), a, k, span, s.clock);
      if a == step.account {
        RecordFits(budget.For(a), s.log, grants, step.index, a, k, span, s.clock, step.now);
      } else {
        OthersFit(budget.For(a), s.log, x, Outstanding(s, a), a, k, span, s.clock);
      }
    }
    forall a, k, span, to ensures InBudget(budget.For(a), s'.log, a, k, span, to) {
      assert InBudget(budget.For(a), s.log, a, k, span, to);
      assert Fits(budget.For(a), s.log, Outstanding(s, a), a, k, span, s.clock);
      if a == step.account {
        RecordInBudget(budget.For(a), s.log, grants, step.index, a, k, span, s.clock, step.now, to);
      } else {
        BetweenSnoc(k, s.log, x, a, to - Milliseconds(span), to);
      }
    }
  }

  lemma AbandonKeepsGood(budget: Budget, s: State, step: Step)
    requires Good(budget, s) && Enabled(s, step) && step.Abandon?
    ensures Good(budget, Next(budget, s, step))
  {
    var s' := Next(budget, s, step);
    forall a, k, span ensures Fits(budget.For(a), s'.log, Outstanding(s', a), a, k, span, s'.clock) {
      assert Fits(budget.For(a), s.log, Outstanding(s, a), a, k, span, s.clock);
      if a == step.account {
        LoadWithout(k, Outstanding(s, a), step.index);
      }
    }
  }

  lemma AssertKeepsGood(budget: Budget, s: State, step: Step)
    requires Good(budget, s) && Enabled(s, step) && step.Assert? && Serialised(s, step)
    ensures Good(budget, Next(budget, s, step))
  {
    var s' := Next(budget, s, step);
    forall a, k, span ensures Fits(budget.For(a), s'.log, Outstanding(s', a), a, k, span, s'.clock) {
      assert Fits(budget.For(a), s.log, Outstanding(s, a), a, k, span, s.clock);
      SinceShrinks(k, s.log, a, s.clock - Milliseconds(span), s'.clock - Milliseconds(span));
      if a == step.account && s'.pending != s.pending {
        GrantFits(budget.For(a), s.log, a, step.estimate, k, span, step.now);
        assert [] + [step.estimate] == [step.estimate];
      }
    }
  }

  lemma GrantFits(l: Limits, log: seq<Spend>, account: string, estimate: nat, k: Kind, span: Span, now: int)
    requires Permitted(l, log, account, estimate, now)
    ensures Fits(l, log, [estimate], account, k, span, now)
  {
    LoadOne(k, estimate);
    match (k, span)
    case (Motes, Hour) =>
    case (Motes, Day) =>
    case (Transactions, Hour) =>
    case (Transactions, Day) =>
  }

  lemma {:induction false} SerialisedKeepsGood(budget: Budget, s: State, steps: seq<Step>)
    requires Good(budget, s) && SerialisedRun(budget, s, steps)
    ensures EnabledRun(budget, s, steps) && Good(budget, Run(budget, s, steps))
    decreases steps
  {
    if steps != [] {
      match steps[0] {
        case Assert(_, _, _) => AssertKeepsGood(budget, s, steps[0]);
        case Record(_, _, _) => RecordKeepsGood(budget, s, steps[0]);
        case Abandon(_, _) => AbandonKeepsGood(budget, s, steps[0]);
      }
      SerialisedKeepsGood(budget, Next(budget, s, steps[0]), steps[1..]);
    }
  }

  function Start(clock: int): State {
    State([], map[], clock)
  }

  lemma WindowHolds(budget: Budget, clock: int, steps: seq<Step>, account: string, k: Kind, span: Span, to: int)
    requires SerialisedRun(budget, Start(clock), steps)
    ensures EnabledRun(budget, Start(clock), steps)
    ensures InBudget(budget.For(account), Run(budget, Start(clock), steps).log, account, k, span, to)
  {
    SerialisedKeepsGood(budget, Start(clock), steps);
  }

  /** For every account and every instant, what was recorded in the 3 600 000 and in the 86 400 000 milliseconds up to
      it, in motes and in transactions, never exceeds the account's limit, if each account's pairs are serialised. */
  lemma BudgetsHold(budget: Budget, clock: int, steps: seq<Step>, account: string, to: int)
    requires SerialisedRun(budget, Start(clock), steps)
    ensures EnabledRun(budget, Start(clock), steps)
    ensures var log := Run(budget, Start(clock), steps).log;
            var l := if account in budget.configured then budget.configured[account] else budget.fallback;
            && Between(Motes, log, account, to - 3_600_000, to) <= l.hourMotes
            && Between(Motes, log, account, to - 86_400_000, to) <= l.dayMotes
            && Between(Transactions, log, account, to - 3_600_000, to) <= l.hourTransactions
            && Between(Transactions, log, account, to - 86_400_000, to) <= l.dayTransactions
  {
    WindowHolds(budget, clock, steps, account, Motes, Hour, to);
    WindowHolds(budget, clock, steps, account, Motes, Day, to);
    WindowHolds(budget, clock, steps, account, Transactions, Hour, to);
    WindowHolds(budget, clock, steps, account, Transactions, Day, to);
  }

  // ---- Overlapping pairs ----------------------------------------------------------------------

  /** Recording and giving up what is outstanding, with no new check: in any order, at any times, all or part of it. */
  predicate Drains(budget: Budget, s: State, steps: seq<Step>) {
    EnabledRun(budget, s, steps) && forall i :: 0 <= i < |steps| ==> !steps[i].Assert?
  }

  lemma {:induction false} DrainingKeepsGood(budget: Budget, s: State, steps: seq<Step>)
    requires Good(budget, s) && Drains(budget, s, steps)
    ensures Good(budget, Run(budget, s, steps))
    decreases steps
  {
    if steps != [] {
      assert !steps[0].Assert?;
      if steps[0].Record? { RecordKeepsGood(budget, s, steps[0]); } else { AbandonKeepsGood(budget, s, steps[0]); }
      assert forall i :: 0 <= i < |steps[1..]| ==> steps[1..][i] == steps[i + 1];
      DrainingKeepsGood(budget, Next(budget, s, steps[0]), steps[1..]);
    }
  }

  /** One way to drain: record everything an account has outstanding, at once. */
  lemma {:induction false} RecordAll(budget: Budget, s: State, account: string, k: Kind, span: Span) returns (steps: seq<Step>)
    requires UpTo(s.log, s.clock)
    ensures Drains(budget, s, steps)
    ensures Between(k, Run(budget, s, steps).log, account, s.clock - Milliseconds(span), s.clock)
         == Since(k, s.log, account, s.clock - Milliseconds(span)) + Load(k, Outstanding(s, account))
    decreases |Outstanding(s, account)|
  {
    var grants, from := Outstanding(s, account), s.clock - Milliseconds(span);
    if grants == [] {
      steps := [];
      BetweenIsSince(k, s.log, account, from, s.clock);
    } else {
      var step := Record(account, 0, s.clock);
      var s', x := Next(budget, s, step), Spend(account, grants[0], s.clock);
      var rest := RecordAll(budget, s', account, k, span);
      steps := [step] + rest;
      assert steps[1..] == rest;
      LoadWithout(k, grants, 0);
      SinceSnoc(k, s.log, x, account, from);
    }
  }

  ghost predicate StaysInBudget(budget: Budget, s: State) {
    forall steps :: Drains(budget, s, steps) ==> AllInBudget(budget, Run(budget, s, steps).log)
  }

  lemma StayingMeansFitting(budget: Budget, s: State, account: string, k: Kind, span: Span)
    requires UpTo(s.log, s.clock) && StaysInBudget(budget, s)
    ensures Fits(budget.For(account), s.log, Outstanding(s, account), account, k, span, s.clock)
  {
    var steps := RecordAll(budget, s, account, k, span);
    assert InBudget(budget.For(account), Run(budget, s, steps).log, account, k, span, s.clock);
  }

  /** Overlapping grants are harmless exactly when all of them still fit together: with the log in budget, every way of
      recording what is outstanding stays in budget if and only if, for each account, kind and span, what the window
      holds now and all that is outstanding are within the limit. */
  lemma OutstandingFitExactly(budget: Budget, s: State)
    requires UpTo(s.log, s.clock) && AllInBudget(budget, s.log)
    ensures StaysInBudget(budget, s) <==> AllFit(budget, s)
  {
    if AllFit(budget, s) {
      forall steps | Drains(budget, s, steps) ensures AllInBudget(budget, Run(budget, s, steps).log) {
        DrainingKeepsGood(budget, s, steps);
      }
    }
    if StaysInBudget(budget, s) {
      forall a, k, span ensures Fits(budget.For(a), s.log, Outstanding(s, a), a, k, span, s.clock) {
        StayingMeansFitting(budget, s, a, k, span);
      }
    }
  }

  lemma RunCons(budget: Budget, s: State, step: Step, rest: seq<Step>)
    requires Enabled(s, step) && EnabledRun(budget, Next(budget, s, step), rest)
    ensures EnabledRun(budget, s, [step] + rest)
    ensures Run(budget, s, [step] + rest) == Run(budget, Next(budget, s, step), rest)
  {
    assert ([step] + rest)[1..] == rest;
  }

  /** One spend of one mote an account, in an hour and in a day. */
  const SINGLE: Budget := Budget(map[], Limits(1, 1, 1, 1))
  const GRANT: Step := Assert("agent", 1, 0)
  const RECORD: Step := Record("agent", 0, 0)
  const SPENT: Spend := Spend("agent", 1, 0)

  lemma OverlappingRun()
    ensures EnabledRun(SINGLE, Start(0), [GRANT, GRANT, RECORD, RECORD])
    ensures Run(SINGLE, Start(0), [GRANT, GRANT, RECORD, RECORD]) == State([SPENT, SPENT], map["agent" := []], 0)
  {
    var s1, s2 := State([], map["agent" := [1]], 0), State([], map["agent" := [1, 1]], 0);
    var s3, s4 := State([SPENT], map["agent" := [1]], 0), State([SPENT, SPENT], map["agent" := []], 0);
    assert [] + [1] == [1] && [1] + [1] == [1, 1] && Without([1, 1], 0) == [1] && Without([1], 0) == [];
    assert Next(SINGLE, Start(0), GRANT) == s1 && Next(SINGLE, s1, GRANT) == s2;
    assert Next(SINGLE, s2, RECORD) == s3 && Next(SINGLE, s3, RECORD) == s4;
    RunCons(SINGLE, s3, RECORD, []);
    RunCons(SINGLE, s2, RECORD, [RECORD] + []);
    RunCons(SINGLE, s1, GRANT, [RECORD] + ([RECORD] + []));
    RunCons(SINGLE, Start(0), GRANT, [GRANT] + ([RECORD] + ([RECORD] + [])));
    assert [GRANT] + ([GRANT] + ([RECORD] + ([RECORD] + []))) == [GRANT, GRANT, RECORD, RECORD];
  }

  /** A run that overshoots: two checks pass before either spend is recorded. */
  lemma OverlappingPairsOvershoot()
    ensures EnabledRun(SINGLE, Start(0), [GRANT, GRANT, RECORD, RECORD])
    ensures var log := Run(SINGLE, Start(0), [GRANT, GRANT, RECORD, RECORD]).log;
            && Between(Motes, log, "agent", 0 - HOUR_MS, 0) == 2 > SINGLE.For("agent").hourMotes
            && Between(Transactions, log, "agent", 0 - DAY_MS, 0) == 2 > SINGLE.For("agent").dayTransactions
  {
    OverlappingRun();
    assert [] + [SPENT] == [SPENT] && [SPENT] + [SPENT] == [SPENT, SPENT];
    BetweenSnoc(Motes, [], SPENT, "agent", 0 - HOUR_MS, 0);
    BetweenSnoc(Motes, [SPENT], SPENT, "agent", 0 - HOUR_MS, 0);
    BetweenSnoc(Transactions, [], SPENT, "agent", 0 - DAY_MS, 0);
    BetweenSnoc(Transactions, [SPENT], SPENT, "agent", 0 - DAY_MS, 0);
  }

  // ---- The guard in use -----------------------------------------------------------------------

  /** The callers of one guard, with the grants they hold. */
  class Callers {
    const guard: Guard
    var pending: map<string, seq<nat>>

    ghost function View(): State
      reads this, guard
    {
      State(guard.log, pending, guard.clock)
    }

    constructor (guard: Guard)
      ensures this.guard == guard && View() == State(guard.log, map[], guard.clock)
    {
      this.guard, pending := guard, map[];
    }

    method Take(step: Step) returns (granted: bool)
      requires guard.Valid() && Enabled(View(), step)
      modifies this, guard
      ensures guard.Valid() && View() == Next(guard.budget, old(View()), step)
      ensures step.Assert? ==>
                (granted <==> Permitted(guard.budget.For(step.account), old(guard.log), step.account, step.estimate, step.now))
    {
      granted := false;
      var account := step.account;
      var grants := if account in pending then pending[account] else [];
      match step
      case Assert(_, estimate, now) =>
        granted := guard.AssertSpendAllowed(account, estimate, now);
        if granted {
          pending := pending[account := grants + [estimate]];
        }
      case Record(_, index, now) =>
        guard.RecordSpend(account, grants[index], now);
        pending := pending[account := Without(grants, index)];
      case Abandon(_, index) =>
        pending := pending[account := Without(grants, index)];
    }

    /** Whatever checks, records and give-ups the callers make, the guard follows the run. */
    method TakeAll(steps: seq<Step>)
      requires guard.Valid() && EnabledRun(guard.budget, View(), steps)
      modifies this, guard
      ensures guard.Valid() && View() == Run(guard.budget, old(View()), steps)
    {
      for i := 0 to |steps|
        invariant guard.Valid() && EnabledRun(guard.budget, View(), steps[i..])
        invariant Run(guard.budget, View(), steps[i..]) == Run(guard.budget, old(View()), steps)
      {
        assert steps[i..][0] == steps[i] && steps[i..][1..] == steps[i + 1..];
        var _ := Take(steps[i]);
      }
    }
  }

  /** A trip only reports: refused for an hour, the account is granted a smaller spend at once. */
  method TrippedYetGranted() returns (refused: bool, granted: bool, guard: Guard)
    ensures refused && granted
    ensures "agent" in guard.tripped && guard.tripped["agent"] == guard.clock + HOUR_MS
  {
    guard := new Guard(Budget(map[], Limits(1, 2, 1, 1)));
    var first := guard.AssertSpendAllowed("agent", 2, 0);
    granted := guard.AssertSpendAllowed("agent", 1, 0);
    refused := !first;
  }
}
