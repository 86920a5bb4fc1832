// The sliding-window spend guard: a pruned history that answers for the whole log, and budgets that hold over
// every window of every run.
module SpendGuard {

  const HOUR_MS: nat := 3_600_000
  const DAY_MS: nat := 86_400_000

  datatype Spend = Spend(account: string, motes: nat, timestamp: int)

  /** What is budgeted, and over how long. */
  datatype Kind = Motes | Transactions

  datatype Span = Hour | Day

  datatype Limits = Limits(hourMotes: nat, dayMotes: nat, hourTransactions: nat, dayTransactions: nat)

  /** The limits in force: those configured for an account, or the ones for every account. */
  datatype Budget = Budget(configured: map<string, Limits>, fallback: Limits) {
    function For(account: string): Limits {
      if account in configured then configured[account] else fallback
    }
  }

  function Milliseconds(s: Span): nat {
    if s.Hour? then HOUR_MS else DAY_MS
  }

  function Limit(l: Limits, k: Kind, s: Span): nat {
    match (k, s)
    case (Motes, Hour) => l.hourMotes
    case (Motes, Day) => l.dayMotes
    case (Transactions, Hour) => l.hourTransactions
    case (Transactions, Day) => l.dayTransactions
  }

  function Weight(k: Kind, motes: nat): nat {
    if k.Motes? then motes else 1
  }

  /** What `account` spent at `from` or later. */
  function Since(k: Kind, log: seq<Spend>, account: string, from: int): nat {
    if log == [] then 0
    else
      var last := log[|log| - 1];
      Since(k, log[..|log| - 1], account, from)
      + if last.account == account && last.timestamp >= from then Weight(k, last.motes) else 0
  }

  /** What `account` spent from `from` to `to`, both included. */
  function Between(k: Kind, log: seq<Spend>, account: string, from: int, to: int): nat {
    if log == [] then 0
    else
      var last := log[|log| - 1];
      Between(k, log[..|log| - 1], account, from, to)
      + if last.account == account && from <= last.timestamp <= to then Weight(k, last.motes) else 0
  }

  ghost predicate Sorted(log: seq<Spend>) {
    forall i, j :: 0 <= i <= j < |log| ==> log[i].timestamp <= log[j].timestamp
  }

  ghost predicate UpTo(log: seq<Spend>, now: int) {
    forall i :: 0 <= i < |log| ==> log[i].timestamp <= now
  }

  /** With one more spend, the window that ends now stays within the limits. */
  predicate Within(l: Limits, log: seq<Spend>, account: string, motes: nat, span: Span, now: int) {
    && Since(Motes, log, account, now - Milliseconds(span)) + motes <= Limit(l, Motes, span)
    && Since(Transactions, log, account, now - Milliseconds(span)) + 1 <= Limit(l, Transactions, span)
  }

  /** The check `assertSpendAllowed` makes, on whatever log it is given. */
  predicate Permitted(l: Limits, log: seq<Spend>, account: string, motes: nat, now: int) {
    Within(l, log, account, motes, Hour, now) && Within(l, log, account, motes, Day, now)
  }

  /** The check in figures: the motes and the transactions recorded in the 3 600 000 and in the 86 400 000 milliseconds
      up to now, with one more spend, against the account's own limits if it has any and the common ones if not. */
  lemma PermittedExactly(budget: Budget, log: seq<Spend>, account: string, motes: nat, now: int)
    ensures var l := if account in budget.configured then budget.configured[account] else budget.fallback;
            Permitted(budget.For(account), log, account, motes, now) <==>
              && Since(Motes, log, account, now - 3_600_000) + motes <= l.hourMotes
              && Since(Motes, log, account, now - 86_400_000) + motes <= l.dayMotes
              && Since(Transactions, log, account, now - 3_600_000) + 1 <= l.hourTransactions
              && Since(Transactions, log, account, now - 86_400_000) + 1 <= l.dayTransactions
  {
  }

  /** One more record adds its motes and one transaction to its own account's windows that reach it, and nothing to
      any other. */
  lemma UsageGrows(log: seq<Spend>, x: Spend, account: string, from: int)
    ensures var counted := x.account == account && x.timestamp >= from;
            && Since(Motes, log + [x], account, from) == Since(Motes, log, account, from) + (if counted then x.motes else 0)
            && Since(Transactions, log + [x], account, from) == Since(Transactions, log, account, from) + (if counted then 1 else 0)
    ensures Since(Motes, [], account, from) == Since(Transactions, [], account, from) == 0
  {
    assert (log + [x])[..|log|] == log;
  }

  /** The history after `prune(now)`: leading records older than a day are gone. */
  function Pruned(log: seq<Spend>, now: int): seq<Spend> {
    if log != [] && now - log[0].timestamp > DAY_MS then Pruned(log[1..], now) else log
  }

  // ---- The pruned history answers for the whole log -------------------------------------------

  lemma {:induction false} SinceSplit(k: Kind, a: seq<Spend>, b: seq<Spend>, account: string, from: int)
    ensures Since(k, a + b, account, from) == Since(k, a, account, from) + Since(k, b, account, from)
  {
    if b == [] {
      assert a + b == a;
    } else {
      assert (a + b)[..|a + b| - 1] == a + b[..|b| - 1];
      SinceSplit(k, a, b[..|b| - 1], account, from);
    }
  }

  lemma {:induction false} OldRecordsDoNotCount(k: Kind, log: seq<Spend>, account: string, from: int)
    requires forall i :: 0 <= i < |log| ==> log[i].timestamp < from
    ensures Since(k, log, account, from) == 0
  {
    if log != [] {
      OldRecordsDoNotCount(k, log[..|log| - 1], account, from);
    }
  }

  /** `history` is what is left of `log` once records more than a day older than `now` are dropped. */
  ghost predicate Retains(history: seq<Spend>, log: seq<Spend>, now: int) {
    && |history| <= |log| && history == log[|log| - |history|..]
    && forall i :: 0 <= i < |log| - |history| ==> now - log[i].timestamp > DAY_MS
  }

  lemma {:induction false} PruneRetains(history: seq<Spend>, log: seq<Spend>, now: int, later: int)
    requires Retains(history, log, now) && now <= later
    ensures Retains(Pruned(history, later), log, later)
    decreases |history|
  {
    if history != [] && later - history[0].timestamp > DAY_MS {
      PruneRetains(history[1..], log, later, later);
    }
  }

  /** Usage and counts over the history equal those over the full log, for any window up to a day. */
  lemma HistoryAnswersForLog(k: Kind, history: seq<Spend>, log: seq<Spend>, account: string, now: int, from: int)
    requires Retains(history, log, now) && from >= now - DAY_MS
    ensures Since(k, history, account, from) == Since(k, log, account, from)
  {
    var dropped := log[..|log| - |history|];
    assert log == dropped + history;
    SinceSplit(k, dropped, history, account, from);
    OldRecordsDoNotCount(k, dropped, account, from);
  }

  // ---- The guard ------------------------------------------------------------------------------

  /** Below every limit: what a tripped account needs, past its recovery time, to be released. */
  predicate Recovered(l: Limits, history: seq<Spend>, account: string, recoverAfter: int, now: int) {
    && now >= recoverAfter
    && Since(Motes, history, account, now - HOUR_MS) < l.hourMotes
    && Since(Motes, history, account, now - DAY_MS) < l.dayMotes
    && Since(Transactions, history, account, now - HOUR_MS) < l.hourTransactions
    && Since(Transactions, history, account, now - DAY_MS) < l.dayTransactions
  }

  lemma NothingSpent()
    ensures Sorted([]) && UpTo([], 0) && Retains([], [], 0)
  {
  }

  /** The release in figures: past its time, and below all four limits. */
  lemma RecoveredExactly(budget: Budget, log: seq<Spend>, account: string, recoverAfter: int, now: int)
    ensures var l := if account in budget.configured then budget.configured[account] else budget.fallback;
            Recovered(budget.For(account), log, account, recoverAfter, now) <==>
              && now >= recoverAfter
              && Since(Motes, log, account, now - 3_600_000) < l.hourMotes
              && Since(Motes, log, account, now - 86_400_000) < l.dayMotes
              && Since(Transactions, log, account, now - 3_600_000) < l.hourTransactions
              && Since(Transactions, log, account, now - 86_400_000) < l.dayTransactions
  {
  }

  class Guard {
    const budget: Budget
    var history: seq<Spend>
    var tripped: map<string, int>
    ghost var log: seq<Spend>
    ghost var clock: int

    ghost predicate Valid()
      reads this
    {
      Sorted(log) && UpTo(log, clock) && Retains(history, log, clock)
    }

    constructor (budget: Budget)
      ensures Valid() && log == [] && clock == 0 && tripped == map[] && this.budget == budget
    {
      this.budget := budget;
      history, tripped, log, clock := [], map[], [], 0;
      NothingSpent();
    }

    method Prune(now: int)
      requires Valid() && clock <= now
      modifies this`history, this`clock
      ensures Valid() && clock == now && history == Pruned(old(history), now)
    {
      PruneRetains(history, log, clock, now);
      while history != [] && now - history[0].timestamp > DAY_MS
        invariant Pruned(history, now) == Pruned(old(history), now)
        decreases |history|
      {
        history := history[1..];
      }
      clock := now;
    }

    /** `usage` and `transactionCount`: what the full log says, although only the history is kept. */
    method Usage(k: Kind, account: string, span: Span, now: int) returns (total: nat)
      requires Valid() && clock <= now
      modifies this`history, this`clock
      ensures Valid() && clock == now && total == Since(k, log, account, now - Milliseconds(span))
    {
      Prune(now);
      total := Since(k, history, account, now - Milliseconds(span));
      HistoryAnswersForLog(k, history, log, account, now, now - Milliseconds(span));
    }

    method WithinSpan(account: string, estimate: nat, span: Span, now: int) returns (within: bool)
      requires Valid() && clock <= now
      modifies this`history, this`clock
      ensures Valid() && clock == now && (within <==> Within(budget.For(account), log, account, estimate, span, now))
    {
      var total := Usage(Motes, account, span, now);
      var transactions := Usage(Transactions, account, span, now);
      var l := budget.For(account);
      within := transactions + 1 <= Limit(l, Transactions, span) && total + estimate <= Limit(l, Motes, span);
    }

    /** What both windows say. */
    method Check(account: string, estimate: nat, now: int) returns (hourly: bool, daily: bool)
      requires Valid() && clock <= now
      modifies this`history, this`clock
      ensures Valid() && clock == now
      ensures var l := if account in budget.configured then budget.configured[account] else budget.fallback;
              && (hourly <==> Since(Motes, log, account, now - 3_600_000) + estimate <= l.hourMotes
                              && Since(Transactions, log, account, now - 3_600_000) + 1 <= l.hourTransactions)
              && (daily <==> Since(Motes, log, account, now - 86_400_000) + estimate <= l.dayMotes
                             && Since(Transactions, log, account, now - 86_400_000) + 1 <= l.dayTransactions)
      ensures hourly && daily <==> Permitted(budget.For(account), log, account, estimate, now)
    {
      hourly := WithinSpan(account, estimate, Hour, now);
      daily := WithinSpan(account, estimate, Day, now);
    }

    /** Grants the spend exactly when the full log permits it; a refusal trips the account until the window that
        was exceeded, the day's if both were, has rolled by. */
    method AssertSpendAllowed(account: string, estimate: nat, now: int) returns (granted: bool)
      requires Valid() && clock <= now
      modifies this`history, this`clock, this`tripped
      ensures Valid() && clock == now
      ensures granted <==> Permitted(budget.For(account), log, account, estimate, now)
      ensures var l := if account in budget.configured then budget.configured[account] else budget.fallback;
              granted <==>
                && Since(Motes, log, account, now - 3_600_000) + estimate <= l.hourMotes
                && Since(Motes, log, account, now - 86_400_000) + estimate <= l.dayMotes
                && Since(Transactions, log, account, now - 3_600_000) + 1 <= l.hourTransactions
                && Since(Transactions, log, account, now - 86_400_000) + 1 <= l.dayTransactions
      ensures granted ==> tripped == old(tripped)
      ensures !granted ==>
                var l := if account in budget.configured then budget.configured[account] else budget.fallback;
                var day := Since(Motes, log, account, now - 86_400_000) + estimate > l.dayMotes
                        || Since(Transactions, log, account, now - 86_400_000) + 1 > l.dayTransactions;
                tripped == old(tripped)[account := now + if day then 86_400_000 else 3_600_000]
    {
      var hourly, daily := Check(account, estimate, now);
      granted := hourly && daily;
      if !granted {
        tripped := tripped[account := now + if !daily then DAY_MS else HOUR_MS];
      }
    }

    method RecordSpend(account: string, estimate: nat, now: int)
      requires Valid() && clock <= now
      modifies this
      ensures Valid() && clock == now && log == old(log) + [Spend(account, estimate, now)]
      ensures tripped == map a | a in old(tripped) && !Recovered(budget.For(a), log, a, old(tripped)[a], now) :: old(tripped)[a]
    {
      history := history + [Spend(account, estimate, now)];
      log := log + [Spend(account, estimate, now)];
      PushRetains(old(history), old(log), Spend(account, estimate, now), clock, now);
      PruneRetains(history, log, now, now);
      clock := now;
      Prune(now);
      Recover(now);
    }

    /** The recovery pass of `spendSnapshot`: releases the tripped accounts that are below every limit again. */
    method Recover(now: int)
      requires Valid() && clock == now
      modifies this`tripped
      ensures tripped == map a | a in old(tripped) && !Recovered(budget.For(a), log, a, old(tripped)[a], now) :: old(tripped)[a]
    {
      var pending := tripped.Keys;
      while pending != {}
        invariant pending <= old(tripped).Keys
        invariant tripped == map a | a in old(tripped) && (a in pending || !Recovered(budget.For(a), log, a, old(tripped)[a], now)) :: old(tripped)[a]
        decreases |pending|
      {
        var account :| account in pending;
        RecoveredOnHistory(budget.For(account), history, log, account, tripped[account], now);
        if Recovered(budget.For(account), history, account, tripped[account], now) {
          tripped := tripped - {account};
        }
        pending := pending - {account};
      }
    }
  }

  lemma PushRetains(history: seq<Spend>, log: seq<Spend>, x: Spend, now: int, later: int)
    requires Retains(history, log, now) && Sorted(log) && UpTo(log, now) && now <= later == x.timestamp
    ensures Retains(history + [x], log + [x], later) && Sorted(log + [x]) && UpTo(log + [x], later)
  {
  }

  lemma RecoveredOnHistory(l: Limits, history: seq<Spend>, log: seq<Spend>, account: string, recoverAfter: int, now: int)
    requires Retains(history, log, now)
    ensures Recovered(l, history, account, recoverAfter, now) <==> Recovered(l, log, account, recoverAfter, now)
  {
    HistoryAnswersForLog(Motes, history, log, account, now, now - HOUR_MS);
    HistoryAnswersForLog(Motes, history, log, account, now, now - DAY_MS);
    HistoryAnswersForLog(Transactions, history, log, account, now, now - HOUR_MS);
    HistoryAnswersForLog(Transactions, history, log, account, now, now - DAY_MS);
  }
}
