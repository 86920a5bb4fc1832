// The backend's views against the chain itself, on a faithful projection of a reachable state.
module Bridge {
  import opened Common
  import opened Suite
  import opened Journal
  import opened Wiring
  import opened Custody
  import opened Payments
  import opened Reachable
  import opened Theorems
  import opened Outcomes
  import opened Watchdog
  import Attestation
  import Owners
  import Vault

  predicate Projects(w: World, r: Record) {
    && r.actionId in w.ctrl.actions
    && (var a := w.ctrl.actions[r.actionId];
        && r.claim == a.claim && r.bondPosted == a.bondPosted && r.windowEnd == a.windowEnd
        && r.status == a.status && r.challenger == a.challenger
        && (r.duplicateProven <==> r.actionId in w.pool.actionDup))
  }

  /** One record for every action on chain, saying what the chain says. */
  ghost predicate Faithful(w: World, actions: seq<Record>) {
    && DistinctIds(actions)
    && (forall r :: r in actions ==> Projects(w, r))
    && (forall id :: id in w.ctrl.actions ==> exists r :: r in actions && r.actionId == id)
  }

  /** For each claim paid, the first to pay it has the least id of all that did. */
  ghost predicate FirstPayersHaveLeastIds(w: World) {
    forall id :: IsSettled(w.ctrl, id) && w.ctrl.actions[id].claim in w.pool.paidClaims ==>
      w.pool.paidClaims[w.ctrl.actions[id].claim] <= id
  }

  /** No settled action with the claim of `id` has a smaller id. */
  ghost predicate HasLeastId(w: World, id: nat)
    requires id in w.ctrl.actions
  {
    forall b: nat :: IsSettled(w.ctrl, b) && w.ctrl.actions[b].claim == w.ctrl.actions[id].claim ==> id <= b
  }

  function DuplicateChallenge(caller: Address, now: nat, id: nat): Tx {
    Tx(caller, now, ChallengeAction(id, DUPLICATE, []))
  }

  lemma ChallengeSucceeds(net: Net, start: World, h: History, r: Record, caller: Address, now: nat)
    requires Reaches(net, start, h) && Projects(h.world, r) && Admissible(net, h.world, DuplicateChallenge(caller, now, r.actionId))
    requires r.duplicateProven && r.status.Executed? && r.windowEnd >= now
    ensures Apply(net, h.world, DuplicateChallenge(caller, now, r.actionId)).Ok?
  {
    ChallengeExactly(net, start, h, DuplicateChallenge(caller, now, r.actionId));
  }

  /** Detection never cries wolf: what it returns is a duplicate on chain, and anyone's challenge of it succeeds. */
  lemma DetectionIsSound(net: Net, start: World, h: History, actions: seq<Record>, r: Record, caller: Address, now: nat)
    requires Reaches(net, start, h) && Faithful(h.world, actions)
    requires Admissible(net, h.world, DuplicateChallenge(caller, now, r.actionId))
    requires |SortById(actions)| == |actions| && r in Picks(SortById(actions), now, |actions|)
    ensures r.actionId in h.world.pool.actionDup
    ensures Apply(net, h.world, DuplicateChallenge(caller, now, r.actionId)).Ok?
  {
    DetectedExactly(actions, now, r);
    ChallengeSucceeds(net, start, h, r, caller, now);
  }

  /** An eligible action is a duplicate on chain whose challenge succeeds. */
  lemma EligibilityIsSound(net: Net, start: World, h: History, r: Record, controllerHash: string, caller: Address, now: nat)
    requires Reaches(net, start, h) && Projects(h.world, r) && IsChallengeEligible(r, controllerHash, now)
    requires Admissible(net, h.world, DuplicateChallenge(caller, now, r.actionId))
    ensures r.actionId in h.world.pool.actionDup
    ensures Apply(net, h.world, DuplicateChallenge(caller, now, r.actionId)).Ok?
  {
    ChallengeSucceeds(net, start, h, r, caller, now);
  }

  lemma EarlierIdIsOnChain(w: World, actions: seq<Record>, r: Record)
    requires Faithful(w, actions) && r in actions
    ensures EarlierIdPaid(actions, r.actionId, r.claim)
       <==> exists b: nat :: b < r.actionId && IsSettled(w.ctrl, b) && w.ctrl.actions[b].claim == r.claim
  {
    if EarlierIdPaid(actions, r.actionId, r.claim) {
      var b :| b in actions && b.actionId < r.actionId && IsPaid(b.status) && b.claim == r.claim;
      assert Projects(w, b) && IsSettled(w.ctrl, b.actionId);
    }
    if exists b: nat :: b < r.actionId && IsSettled(w.ctrl, b) && w.ctrl.actions[b].claim == r.claim {
      var b: nat :| b < r.actionId && IsSettled(w.ctrl, b) && w.ctrl.actions[b].claim == r.claim;
      var x :| x in actions && x.actionId == b;
      assert Projects(w, x);
    }
  }

  lemma EarlierIdExactly(w: World, actions: seq<Record>, r: Record)
    requires Faithful(w, actions) && r in actions
    ensures EarlierIdPaid(actions, r.actionId, r.claim) <==> !HasLeastId(w, r.actionId)
  {
    EarlierIdIsOnChain(w, actions, r);
  }

  /** An on-chain duplicate that is open to challenge and not set aside. */
  ghost predicate IsOpenDuplicate(w: World, r: Record, now: nat) {
    && r.actionId in w.pool.actionDup && r.status.Executed? && r.windowEnd >= now
    && !r.reservedForManual && r.challenger.None?
  }

  /** Detection returns the open duplicates but those with the least id among the payers of their claim. */
  lemma DetectedOnChainExactly(w: World, actions: seq<Record>, r: Record, now: nat)
    requires Faithful(w, actions) && r in actions
    ensures |SortById(actions)| == |actions|
    ensures r in Picks(SortById(actions), now, |actions|) <==> IsOpenDuplicate(w, r, now) && !HasLeastId(w, r.actionId)
  {
    DetectedExactly(actions, now, r);
    EarlierIdExactly(w, actions, r);
  }

  /** So it is complete exactly when no open duplicate has the least id among the payers of its claim. */
  lemma DetectionIsComplete(w: World, actions: seq<Record>, now: nat)
    requires Faithful(w, actions)
    ensures |SortById(actions)| == |actions|
    ensures (forall r :: r in actions && IsOpenDuplicate(w, r, now) ==> r in Picks(SortById(actions), now, |actions|))
       <==> (forall r :: r in actions && IsOpenDuplicate(w, r, now) ==> !HasLeastId(w, r.actionId))
  {
    SortByIdSorts(actions);
    forall r | r in actions
      ensures r in Picks(SortById(actions), now, |actions|) <==> IsOpenDuplicate(w, r, now) && !HasLeastId(w, r.actionId)
    {
      DetectedOnChainExactly(w, actions, r, now);
    }
  }

  lemma FirstPayerIsSettled(net: Net, start: World, h: History, claim: Bytes)
    requires Reaches(net, start, h) && claim in h.world.pool.paidClaims
    ensures IsSettled(h.world.ctrl, h.world.pool.paidClaims[claim])
    ensures h.world.ctrl.actions[h.world.pool.paidClaims[claim]].claim == claim
  {
    var c, p, payouts := h.world.ctrl, h.world.pool, PayoutsOf(h.journal);
    assert Indexed(p, payouts) && Recorded(c, payouts) by { ReachedIsGood(net, start, h); }
    var first :| FirstAt(payouts, first, claim) && payouts[first].id == p.paidClaims[claim];
    assert PaysAt(payouts, first, p.paidClaims[claim]);
  }

  /** On every settled action, the chain's flag is that of every payer but the first. */
  lemma FlaggedExactly(net: Net, start: World, h: History, id: nat)
    requires Reaches(net, start, h) && IsSettled(h.world.ctrl, id)
    ensures var claim, p := h.world.ctrl.actions[id].claim, h.world.pool;
            && claim in p.paidClaims
            && IsSettled(h.world.ctrl, p.paidClaims[claim])
            && h.world.ctrl.actions[p.paidClaims[claim]].claim == claim
            && (id in p.actionDup <==> id != p.paidClaims[claim])
  {
    OneHonestPayerPerClaim(net, start, h, id);
    FirstPayerIsSettled(net, start, h, h.world.ctrl.actions[id].claim);
  }

  /** The collision check and the chain's flag agree on an action exactly when both or neither of these hold: it was
      the first to pay its claim; it has the least id of those that paid it. */
  lemma CollisionAgreesOn(net: Net, start: World, h: History, actions: seq<Record>, r: Record)
    requires Reaches(net, start, h) && Faithful(h.world, actions) && r in actions && IsPaid(r.status)
    ensures r.claim in h.world.pool.paidClaims
    ensures (CollidesWithPaidClaim(actions, r) <==> r.actionId in h.world.pool.actionDup)
       <==> (r.actionId == h.world.pool.paidClaims[r.claim] <==> HasLeastId(h.world, r.actionId))
  {
    assert IsSettled(h.world.ctrl, r.actionId);
    CollidesExactly(actions, r);
    EarlierIdExactly(h.world, actions, r);
    FlaggedExactly(net, start, h, r.actionId);
  }

  /** They agree on every paid action exactly when the first payer of every claim has the least id of its payers. */
  lemma CollisionAgrees(net: Net, start: World, h: History, actions: seq<Record>)
    requires Reaches(net, start, h) && Faithful(h.world, actions)
    ensures (forall r :: r in actions && IsPaid(r.status) ==>
              (CollidesWithPaidClaim(actions, r) <==> r.actionId in h.world.pool.actionDup))
       <==> FirstPayersHaveLeastIds(h.world)
  {
    var w := h.world;
    if FirstPayersHaveLeastIds(w) {
      forall r | r in actions && IsPaid(r.status)
        ensures CollidesWithPaidClaim(actions, r) <==> r.actionId in w.pool.actionDup
      {
        CollisionAgreesOn(net, start, h, actions, r);
        FlaggedExactly(net, start, h, r.actionId);
      }
    }
    if forall r :: r in actions && IsPaid(r.status) ==> (CollidesWithPaidClaim(actions, r) <==> r.actionId in w.pool.actionDup) {
      forall id | IsSettled(w.ctrl, id) && w.ctrl.actions[id].claim in w.pool.paidClaims
        ensures w.pool.paidClaims[w.ctrl.actions[id].claim] <= id
      {
        FlaggedExactly(net, start, h, id);
        FlaggedExactly(net, start, h, w.pool.paidClaims[w.ctrl.actions[id].claim]);
        FirstPayerHasLeastId(net, start, h, actions, w.pool.paidClaims[w.ctrl.actions[id].claim]);
      }
    }
  }

  lemma FirstPayerHasLeastId(net: Net, start: World, h: History, actions: seq<Record>, first: nat)
    requires Reaches(net, start, h) && Faithful(h.world, actions) && IsSettled(h.world.ctrl, first)
    requires first !in h.world.pool.actionDup
    requires forall r :: r in actions && IsPaid(r.status) ==>
               (CollidesWithPaidClaim(actions, r) <==> r.actionId in h.world.pool.actionDup)
    ensures HasLeastId(h.world, first)
  {
    var r :| r in actions && r.actionId == first;
    assert Projects(h.world, r) && IsPaid(r.status);
    CollidesExactly(actions, r);
    EarlierIdExactly(h.world, actions, r);
  }

  /** Asked about a claim rather than an action, the check needs no order: it says yes exactly for the claims paid. */
  lemma ClaimCollisionAgrees(net: Net, start: World, h: History, actions: seq<Record>, claim: Bytes)
    requires Reaches(net, start, h) && Faithful(h.world, actions)
    ensures |MatchingActionIds(actions, claim, None)| > 0 <==> claim in h.world.pool.paidClaims
  {
    MatchesExactly(actions, claim, None);
    if exists b :: b in actions && Matches(b, claim, None) {
      var b :| b in actions && Matches(b, claim, None);
      assert Projects(h.world, b) && IsSettled(h.world.ctrl, b.actionId);
      FlaggedExactly(net, start, h, b.actionId);
    }
    if claim in h.world.pool.paidClaims {
      FirstPayerIsSettled(net, start, h, claim);
      var b :| b in actions && b.actionId == h.world.pool.paidClaims[claim];
      assert Projects(h.world, b) && Matches(b, claim, None);
    }
  }

  /** The recorded reward is the challenger's share on chain for every bond exactly at 5000 basis points. */
  lemma RewardIsHalf(bps: nat)
    ensures bps == 5_000 <==> forall bond: nat :: CatchReward(bond) == Vault.ChallengerShare(bond, bps)
  {
    if bps == 5_000 {
      forall bond: nat ensures CatchReward(bond) == Vault.ChallengerShare(bond, bps) {
        HalfOf(bond);
      }
    } else {
      assert CatchReward(10_000) != Vault.ChallengerShare(10_000, bps);
    }
  }

  lemma HalfOf(x: nat)
    ensures x * 5_000 / 10_000 == x / 2
  {
  }

  /** A delivery attestation the backend accepted slashes: on an executed action, for its invoice and under that
      invoice's key, anyone's challenge with it succeeds exactly inside the window, for an event dated between the
      deadline and the block time, with unspent evidence whose signature the contract's library can read. */
  lemma AttestationConvictsOn(net: Net, start: World, h: History, input: Attestation.Input, caller: Address, now: nat)
    requires Reaches(net, start, h) && input.WellFormed() && Attestation.VerifyAttestation(net.ed, input).Accepted?
    requires input.actionId in h.world.ctrl.actions && h.world.ctrl.actions[input.actionId].status.Executed?
    requires h.world.ctrl.actions[input.actionId].invoiceId == input.invoiceId
    requires input.invoiceId in h.world.pool.invoices
    requires h.world.pool.invoices[input.invoiceId].buyerKey == input.buyerKey
    requires Admissible(net, h.world, EvidenceChallenge(net, input, caller, now))
    ensures Apply(net, h.world, EvidenceChallenge(net, input, caller, now)).Ok?
       <==> && now <= h.world.ctrl.actions[input.actionId].windowEnd
            && h.world.pool.invoices[input.invoiceId].deadline <= input.occurredAt <= now
            && Attestation.VerifyAttestation(net.ed, input).evidence !in h.world.used
            && net.ed.parsesSignature(input.signature)
  {
    var invoice := h.world.pool.invoices[input.invoiceId];
    Attestation.AcceptedEvidenceProves(net.ed, input, invoice, now);
    ChallengeExactly(net, start, h, EvidenceChallenge(net, input, caller, now));
  }

  /** The same from what was submitted: the key and the deadline are those of the entry that listed the invoice. */
  lemma AttestationConvicts(net: Net, start: World, h: History, input: Attestation.Input, caller: Address, now: nat, k: nat)
    requires Reaches(net, start, h) && input.WellFormed() && Attestation.VerifyAttestation(net.ed, input).Accepted?
    requires input.actionId in h.world.ctrl.actions && h.world.ctrl.actions[input.actionId].status.Executed?
    requires h.world.ctrl.actions[input.actionId].invoiceId == input.invoiceId
    requires k < |h.journal| && h.journal[k].event.Listed? && h.journal[k].event.id == input.invoiceId
    requires h.journal[k].event.terms.buyerKey == input.buyerKey
    requires Admissible(net, h.world, EvidenceChallenge(net, input, caller, now))
    ensures Apply(net, h.world, EvidenceChallenge(net, input, caller, now)).Ok?
       <==> && now <= h.world.ctrl.actions[input.actionId].windowEnd
            && h.journal[k].event.terms.deadline <= input.occurredAt <= now
            && Attestation.VerifyAttestation(net.ed, input).evidence !in h.world.used
            && net.ed.parsesSignature(input.signature)
  {
    Owners.ReachedIsOwned(net, start, h);
    AttestationConvictsOn(net, start, h, input, caller, now);
  }

  function EvidenceChallenge(net: Net, input: Attestation.Input, caller: Address, now: nat): Tx
    requires Attestation.VerifyAttestation(net.ed, input).Accepted?
  {
    Tx(caller, now, ChallengeAction(input.actionId, DELIVERY, Attestation.VerifyAttestation(net.ed, input).evidence))
  }
}
