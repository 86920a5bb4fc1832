// The backend's views of the chain: duplicate detection, challenge eligibility, claim collision and rewards,
// each as the code computes it from projected action records.
module Watchdog {
  import opened Common
  import opened Suite

  datatype Record = Record(
    actionId: nat,
    claim: Bytes,
    bondPosted: nat,
    windowEnd: nat,
    status: Status,
    challenger: Option<Address>,
    controllerHash: string,
    duplicateProven: bool,
    reservedForManual: bool)

  /** Executed, Challenged, ResolvedRefund or ResolvedSlash. */
  predicate IsPaid(s: Status) {
    s.Executed? || s.Challenged? || s.ResolvedRefund? || s.ResolvedSlash?
  }

  // ---- Sorting by action id -------------------------------------------------------------------

  function InsertById(r: Record, sorted: seq<Record>): seq<Record> {
    if sorted == [] || r.actionId <= sorted[0].actionId then [r] + sorted
    else [sorted[0]] + InsertById(r, sorted[1..])
  }

  /** The stable sort of the records by action id. */
  function SortById(actions: seq<Record>): seq<Record> {
    if actions == [] then [] else InsertById(actions[0], SortById(actions[1..]))
  }

  ghost predicate Ascending(s: seq<Record>) {
    forall i, j :: 0 <= i < j < |s| ==> s[i].actionId <= s[j].actionId
  }

  lemma {:induction false} InsertByIdSorts(r: Record, sorted: seq<Record>)
    requires Ascending(sorted)
    ensures Ascending(InsertById(r, sorted)) && |InsertById(r, sorted)| == |sorted| + 1
    ensures forall x :: x in InsertById(r, sorted) <==> x == r || x in sorted
  {
    if sorted != [] && sorted[0].actionId < r.actionId {
      InsertByIdSorts(r, sorted[1..]);
      var rest := InsertById(r, sorted[1..]);
      assert sorted == [sorted[0]] + sorted[1..];
      forall k | 0 <= k < |rest| ensures sorted[0].actionId <= rest[k].actionId {
        assert rest[k] in rest;
      }
    }
  }

  lemma {:induction false} SortByIdSorts(actions: seq<Record>)
    ensures Ascending(SortById(actions)) && |SortById(actions)| == |actions|
    ensures forall x :: x in SortById(actions) <==> x in actions
  {
    if actions != [] {
      SortByIdSorts(actions[1..]);
      InsertByIdSorts(actions[0], SortById(actions[1..]));
      assert actions == [actions[0]] + actions[1..];
    }
  }

  /** One record for each action id, as the table's primary key keeps it. */
  ghost predicate DistinctIds(actions: seq<Record>) {
    forall i, j :: 0 <= i < j < |actions| ==> actions[i].actionId != actions[j].actionId
  }

  lemma {:induction false} InsertByIdKeepsDistinct(r: Record, sorted: seq<Record>)
    requires DistinctIds(sorted) && Ascending(sorted)
    requires forall x :: x in sorted ==> x.actionId != r.actionId
    ensures DistinctIds(InsertById(r, sorted))
  {
    if sorted != [] && sorted[0].actionId < r.actionId {
      var rest := InsertById(r, sorted[1..]);
      InsertByIdKeepsDistinct(r, sorted[1..]);
      InsertByIdSorts(r, sorted[1..]);
      forall k | 0 <= k < |rest| ensures rest[k].actionId != sorted[0].actionId {
        assert rest[k] in rest;
      }
    }
  }

  lemma {:induction false} SortByIdKeepsDistinct(actions: seq<Record>)
    requires DistinctIds(actions)
    ensures DistinctIds(SortById(actions))
  {
    if actions != [] {
      SortByIdKeepsDistinct(actions[1..]);
      SortByIdSorts(actions[1..]);
      InsertByIdKeepsDistinct(actions[0], SortById(actions[1..]));
    }
  }

  // ---- detectDuplicateActions -----------------------------------------------------------------

  /** What the record itself must say for a duplicate to be worth challenging. */
  predicate Challengeable(r: Record, nowMs: nat) {
    && r.duplicateProven && r.status.Executed? && r.windowEnd >= nowMs
    && !r.reservedForManual && r.challenger.None?
  }

  ghost predicate PaidBefore(s: seq<Record>, n: int, claim: Bytes) {
    exists j :: 0 <= j < n <= |s| && IsPaid(s[j].status) && s[j].claim == claim
  }

  /** The records of `s` that repeat a claim paid further up and are challengeable, in order. */
  ghost function Picks(s: seq<Record>, nowMs: nat, n: nat): seq<Record>
    requires n <= |s|
  {
    if n == 0 then []
    else Picks(s, nowMs, n - 1)
         + if PaidBefore(s, n - 1, s[n - 1].claim) && Challengeable(s[n - 1], nowMs) then [s[n - 1]] else []
  }

  method DetectDuplicateActions(actions: seq<Record>, nowMs: nat) returns (duplicates: seq<Record>)
    ensures |SortById(actions)| == |actions|
    ensures duplicates == Picks(SortById(actions), nowMs, |actions|)
  {
    SortByIdSorts(actions);
    var sorted := SortById(actions);
    var seen: set<Bytes> := {};
    duplicates := [];
    for k := 0 to |sorted|
      invariant forall c :: c in seen <==> PaidBefore(sorted, k, c)
      invariant duplicates == Picks(sorted, nowMs, k)
    {
      var action := sorted[k];
      if !IsPaid(action.status) {
        continue;
      }
      if action.claim in seen && Challengeable(action, nowMs) {
        duplicates := duplicates + [action];
      }
      seen := seen + {action.claim};
    }
  }

  /** An action with a smaller id paid the same claim. */
  ghost predicate EarlierIdPaid(actions: seq<Record>, actionId: nat, claim: Bytes) {
    exists b :: b in actions && b.actionId < actionId && IsPaid(b.status) && b.claim == claim
  }

  lemma {:induction false} PickedExactly(s: seq<Record>, nowMs: nat, n: nat, r: Record)
    requires n <= |s|
    ensures r in Picks(s, nowMs, n)
       <==> exists k :: 0 <= k < n && s[k] == r && PaidBefore(s, k, r.claim) && Challengeable(r, nowMs)
  {
    if n > 0 {
      PickedExactly(s, nowMs, n - 1, r);
    }
  }

  lemma PaidBeforeExactly(s: seq<Record>, k: nat)
    requires Ascending(s) && DistinctIds(s) && k < |s|
    ensures PaidBefore(s, k, s[k].claim) <==> EarlierIdPaid(s, s[k].actionId, s[k].claim)
  {
    if PaidBefore(s, k, s[k].claim) {
      var j :| 0 <= j < k && IsPaid(s[j].status) && s[j].claim == s[k].claim;
      assert s[j] in s && s[j].actionId < s[k].actionId;
    }
    if EarlierIdPaid(s, s[k].actionId, s[k].claim) {
      var b :| b in s && b.actionId < s[k].actionId && IsPaid(b.status) && b.claim == s[k].claim;
      var j :| 0 <= j < |s| && s[j] == b;
      assert j < k;
    }
  }

  /** Whatever the order of the records, detection returns exactly the challengeable ones whose claim an action with
      a smaller id paid. */
  lemma DetectedExactly(actions: seq<Record>, nowMs: nat, r: Record)
    requires DistinctIds(actions)
    ensures |SortById(actions)| == |actions|
    ensures r in Picks(SortById(actions), nowMs, |actions|)
       <==> r in actions && Challengeable(r, nowMs) && EarlierIdPaid(actions, r.actionId, r.claim)
  {
    SortByIdSorts(actions);
    SortByIdKeepsDistinct(actions);
    var s := SortById(actions);
    PickedExactly(s, nowMs, |s|, r);
    assert EarlierIdPaid(s, r.actionId, r.claim) <==> EarlierIdPaid(actions, r.actionId, r.claim);
    if r in s {
      var k :| 0 <= k < |s| && s[k] == r;
      PaidBeforeExactly(s, k);
      assert forall i :: 0 <= i < |s| && s[i] == r ==> i == k;
    }
  }

  // ---- Eligibility and collisions -------------------------------------------------------------

  predicate IsChallengeEligible(r: Record, controllerHash: string, nowMs: nat) {
    && r.controllerHash == controllerHash && r.status.Executed? && r.challenger.None?
    && r.windowEnd > nowMs && r.duplicateProven
  }

  function ChallengeIneligibilityCode(r: Option<Record>, controllerHash: string, nowMs: nat): string {
    if r.None? then "NO_ELIGIBLE_ACTION"
    else if r.value.controllerHash != controllerHash then "STALE_CONTRACT_VERSION"
    else if r.value.challenger.Some? then "ALREADY_CHALLENGED"
    else if r.value.windowEnd <= nowMs then "CHALLENGE_WINDOW_CLOSED"
    else if !r.value.status.Executed? || !r.value.duplicateProven then "NOT_EXECUTABLE"
    else "NO_ELIGIBLE_ACTION"
  }

  /** The two chains of tests agree: an existing action is eligible exactly when no reason is found against it. */
  lemma EligibleExactly(r: Record, controllerHash: string, nowMs: nat)
    ensures IsChallengeEligible(r, controllerHash, nowMs)
       <==> ChallengeIneligibilityCode(Some(r), controllerHash, nowMs) == "NO_ELIGIBLE_ACTION"
  {
    var code := ChallengeIneligibilityCode(Some(r), controllerHash, nowMs);
    assert "STALE_CONTRACT_VERSION"[0] != "NO_ELIGIBLE_ACTION"[0] && "ALREADY_CHALLENGED"[0] != "NO_ELIGIBLE_ACTION"[0];
    assert "CHALLENGE_WINDOW_CLOSED"[0] != "NO_ELIGIBLE_ACTION"[0] && "NOT_EXECUTABLE"[2] != "NO_ELIGIBLE_ACTION"[2];
  }

  /** Which reason is given, and when: the first that applies, of a missing record, another contract version, a
      challenge, a window that is over, and a status other than executed or no proof of duplication. */
  lemma ReasonsExactly(r: Option<Record>, controllerHash: string, nowMs: nat)
    ensures var code := ChallengeIneligibilityCode(r, controllerHash, nowMs);
            && (r == None ==> code == "NO_ELIGIBLE_ACTION")
            && (r != None && r.value.controllerHash != controllerHash ==> code == "STALE_CONTRACT_VERSION")
            && (r != None && r.value.controllerHash == controllerHash ==>
                  && (r.value.challenger != None ==> code == "ALREADY_CHALLENGED")
                  && (r.value.challenger == None && r.value.windowEnd <= nowMs ==> code == "CHALLENGE_WINDOW_CLOSED")
                  && (r.value.challenger == None && nowMs < r.value.windowEnd && (r.value.status != Executed || !r.value.duplicateProven)
                      ==> code == "NOT_EXECUTABLE"))
  {
  }

  predicate Matches(r: Record, claim: Bytes, before: Option<nat>) {
    r.claim == claim && (before.None? || r.actionId < before.value) && IsPaid(r.status)
  }

  /** `verifyClaimCollision`: of the paid actions with the claim, those with an id below the bound, if there is one. */
  function MatchingActionIds(actions: seq<Record>, claim: Bytes, before: Option<nat>): seq<nat> {
    if actions == [] then []
    else (if Matches(actions[0], claim, before) then [actions[0].actionId] else [])
         + MatchingActionIds(actions[1..], claim, before)
  }

  /** For an action: does a paid action with a smaller id have its claim? */
  predicate CollidesWithPaidClaim(actions: seq<Record>, r: Record) {
    |MatchingActionIds(actions, r.claim, Some(r.actionId))| > 0
  }

  /** Given a claim or an action, the check says yes exactly when some record matches. */
  lemma {:induction false} MatchesExactly(actions: seq<Record>, claim: Bytes, before: Option<nat>)
    ensures |MatchingActionIds(actions, claim, before)| > 0 <==> exists b :: b in actions && Matches(b, claim, before)
  {
    if actions != [] {
      MatchesExactly(actions[1..], claim, before);
      assert actions == [actions[0]] + actions[1..];
      if exists b :: b in actions && Matches(b, claim, before) {
        var b :| b in actions && Matches(b, claim, before);
        assert b == actions[0] || b in actions[1..];
      }
    }
  }

  lemma CollidesExactly(actions: seq<Record>, r: Record)
    ensures CollidesWithPaidClaim(actions, r) <==> EarlierIdPaid(actions, r.actionId, r.claim)
  {
    MatchesExactly(actions, r.claim, Some(r.actionId));
    if EarlierIdPaid(actions, r.actionId, r.claim) {
      var b :| b in actions && b.actionId < r.actionId && IsPaid(b.status) && b.claim == r.claim;
      assert Matches(b, r.claim, Some(r.actionId));
    }
  }

  /** What the watchdog records as its reward. */
  function CatchReward(bondPosted: nat): nat {
    bondPosted / 2
  }
}
