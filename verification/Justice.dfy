// Why an action ended the way it did: challenges, refunds, spent evidence and reputation.
module Justice {
  import opened Common
  import opened Suite
  import opened Journal
  import opened Wiring
  import opened Custody
  import opened Pricing
  import Pool
  import Delivery

  // ---- Verdicts -------------------------------------------------------------------------------

  /** Entry `k` is the challenge action `id` still carries: in time, by its challenger, and for a proven fault. */
  ghost predicate Upheld(net: Net, p: Pool.Store, journal: seq<Entry>, k: int, id: nat, a: Action) {
    && 0 <= k < |journal|
    && journal[k].event == Contested(id, a.faultClass, a.evidence)
    && a.challenger == Some(journal[k].caller)
    && journal[k].time <= a.windowEnd
    && Faulty(net, p, id, a.invoiceId, a.faultClass, a.evidence, journal[k].time)
  }

  /** Entry `k` refunded action `id` after its window. */
  ghost predicate Released(journal: seq<Entry>, k: int, id: nat, a: Action) {
    && 0 <= k < |journal|
    && journal[k].event == Refunded(id, a.agent, a.bondRequired)
    && a.windowEnd < journal[k].time
  }

  ghost predicate Judged(net: Net, w: World, journal: seq<Entry>) {
    && (forall id :: id in w.ctrl.actions && w.ctrl.actions[id].challenger.Some? ==>
          exists k :: Upheld(net, w.pool, journal, k, id, w.ctrl.actions[id]))
    && (forall id :: id in w.ctrl.actions && w.ctrl.actions[id].status.ResolvedRefund? ==>
          exists k :: Released(journal, k, id, w.ctrl.actions[id]))
  }

  /** Entry `k` ended action `id`. */
  ghost predicate EndsAt(journal: seq<Entry>, k: int, id: nat) {
    0 <= k < |journal| && (journal[k].event.Slashed? || journal[k].event.Refunded?) && journal[k].event.id == id
  }

  /** An action ends at most once, and its status says how. */
  ghost predicate EndedOnce(c: Controller, journal: seq<Entry>) {
    && (forall k, id :: EndsAt(journal, k, id) ==>
          id in c.actions && c.actions[id].status == StatusAfter(journal[k].event))
    && (forall i, j, id :: EndsAt(journal, i, id) && EndsAt(journal, j, id) ==> i == j)
  }

  /** The parts of an action a verdict depends on. */
  predicate SameVerdict(a: Action, a': Action) {
    && SameTerms(a, a') && a'.windowEnd == a.windowEnd
    && a'.challenger == a.challenger && a'.faultClass == a.faultClass && a'.evidence == a.evidence
  }

  lemma UpheldStays(net: Net, p: Pool.Store, p': Pool.Store, journal: seq<Entry>, e: Entry, k: int, id: nat, a: Action, a': Action)
    requires Upheld(net, p, journal, k, id, a) && Remembers(p, p') && SameVerdict(a, a')
    ensures Upheld(net, p', journal + [e], k, id, a')
  {
  }

  lemma StepKeepsJudged(net: Net, h: History, w': World, e: Entry)
    requires Coupled(net, h.world) && Judged(net, h.world, h.journal) && Explains(net, h.world, w', e)
    requires Turns(h.world.ctrl, w'.ctrl, e.event) && Remembers(h.world.pool, w'.pool) && Coupled(net, w')
    ensures Judged(net, w', h.journal + [e])
  {
    var w, after, n := h.world, h.journal + [e], |h.journal|;
    forall id | id in w'.ctrl.actions && w'.ctrl.actions[id].challenger.Some?
      ensures exists k :: Upheld(net, w'.pool, after, k, id, w'.ctrl.actions[id])
    {
      if e.event.Contested? && e.event.id == id {
        assert Upheld(net, w'.pool, after, n, id, w'.ctrl.actions[id]);
      } else {
        SlashKeepsVerdict(net, w, w', e, id);
        var k :| Upheld(net, w.pool, h.journal, k, id, w.ctrl.actions[id]);
        UpheldStays(net, w.pool, w'.pool, h.journal, e, k, id, w.ctrl.actions[id], w'.ctrl.actions[id]);
      }
    }
    forall id | id in w'.ctrl.actions && w'.ctrl.actions[id].status.ResolvedRefund?
      ensures exists k :: Released(after, k, id, w'.ctrl.actions[id])
    {
      if e.event.Refunded? && e.event.id == id {
        assert Released(after, n, id, w'.ctrl.actions[id]);
      } else {
        var k :| Released(h.journal, k, id, w.ctrl.actions[id]);
        assert Released(after, k, id, w'.ctrl.actions[id]);
      }
    }
  }

  /** An action that is challenged after a step it was not challenged by was so before it, on the same grounds. */
  lemma SlashKeepsVerdict(net: Net, w: World, w': World, e: Entry, id: nat)
    requires Coupled(net, w) && Coupled(net, w') && Explains(net, w, w', e) && Turns(w.ctrl, w'.ctrl, e.event)
    requires id in w'.ctrl.actions && w'.ctrl.actions[id].challenger.Some?
    requires !(e.event.Contested? && e.event.id == id)
    ensures id in w.ctrl.actions && w.ctrl.actions[id].challenger.Some?
    ensures SameVerdict(w.ctrl.actions[id], w'.ctrl.actions[id])
  {
    if Lifecycle(e.event) && e.event.id == id {
      assert e.event.Slashed?;
    }
  }

  lemma StepKeepsEndedOnce(c: Controller, c': Controller, journal: seq<Entry>, e: Entry)
    requires Numbered(c) && EndedOnce(c, journal) && Turns(c, c', e.event)
    ensures EndedOnce(c', journal + [e])
  {
    var after := journal + [e];
    assert forall k, id :: EndsAt(after, k, id) && k < |journal| ==> EndsAt(journal, k, id);
    assert forall k, id :: EndsAt(after, k, id) && k == |journal| ==> id == e.event.id && Lifecycle(e.event);
  }

  // ---- Evidence -------------------------------------------------------------------------------

  /** Every evidence value the delivery verifier accepted, in order: in challenges and in direct calls. */
  function Accepted(journal: seq<Entry>): seq<Bytes> {
    if journal == [] then []
    else
      var e := journal[|journal| - 1].event;
      Accepted(journal[..|journal| - 1])
      + if e.Proven? || (e.Contested? && e.faultClass == DELIVERY) then [e.evidence] else []
  }

  lemma AcceptedSnoc(journal: seq<Entry>, e: Entry)
    ensures Accepted(journal + [e]) == Accepted(journal)
         + if e.event.Proven? || (e.event.Contested? && e.event.faultClass == DELIVERY) then [e.event.evidence] else []
  {
    assert (journal + [e])[..|journal|] == journal;
  }

  /** No evidence value is ever accepted twice. */
  ghost predicate SpentOnce(start: World, used: set<Bytes>, accepted: seq<Bytes>) {
    && (forall x :: x in used <==> x in start.used || x in accepted)
    && (forall x :: x in accepted ==> x !in start.used)
    && (forall i, j :: 0 <= i < j < |accepted| ==> accepted[i] != accepted[j])
  }

  lemma StepKeepsSpentOnce(net: Net, start: World, h: History, w': World, e: Entry)
    requires Explains(net, h.world, w', e) && SpentOnce(start, h.world.used, Accepted(h.journal))
    ensures SpentOnce(start, w'.used, Accepted(h.journal + [e]))
  {
    AcceptedSnoc(h.journal, e);
  }

  // ---- Reputation, prices and progress --------------------------------------------------------

  ghost predicate RatedAs(c: Controller, journal: seq<Entry>, agent: Address)
    requires Numbered(c)
  {
    var rep := c.RepOf(agent);
    && rep.clean == Tally(CleanOf(agent), c.actions, c.nextId)
    && rep.slashed == Tally(SlashedOf(agent), c.actions, c.nextId)
    && rep.score == Sum(Score(agent), journal) == 10 * rep.clean - 50 * rep.slashed
  }

  ghost predicate Rated(c: Controller, journal: seq<Entry>)
    requires Numbered(c)
  {
    forall agent :: RatedAs(c, journal, agent)
  }

  /** What an entry does to one agent's reputation. */
  ghost predicate Rates(c: Controller, c': Controller, e: Event, agent: Address) {
    var rep := c.RepOf(agent);
    c'.RepOf(agent) ==
      if e.Refunded? && e.agent == agent then Rep(rep.clean + 1, rep.slashed, rep.score + 10)
      else if e.Slashed? && e.agent == agent then Rep(rep.clean, rep.slashed + 1, rep.score - 50)
      else rep
  }

  lemma StepRates(net: Net, w: World, w': World, e: Entry, agent: Address)
    requires Explains(net, w, w', e)
    ensures Rates(w.ctrl, w'.ctrl, e.event, agent)
    ensures e.event.Refunded? || e.event.Slashed? ==>
              e.event.id in w.ctrl.actions && w.ctrl.actions[e.event.id].agent == e.event.agent
  {
    match e.event
    case Refunded(_, _, _) =>
    case Slashed(_, _, _, _, _) =>
    case _ =>
  }

  lemma StepKeepsRatedAs(c: Controller, c': Controller, journal: seq<Entry>, e: Entry, agent: Address)
    requires Numbered(c) && Numbered(c') && Turns(c, c', e.event) && Rates(c, c', e.event, agent)
    requires e.event.Refunded? || e.event.Slashed? ==> c.actions[e.event.id].agent == e.event.agent
    requires RatedAs(c, journal, agent)
    ensures RatedAs(c', journal + [e], agent)
  {
    SumSnoc(Score(agent), journal, e);
    TallyMoves(CleanOf(agent), c, c', e.event);
    TallyMoves(SlashedOf(agent), c, c', e.event);
  }

  lemma StepKeepsRated(net: Net, h: History, w': World, e: Entry)
    requires Numbered(h.world.ctrl) && Numbered(w'.ctrl) && Explains(net, h.world, w', e)
    requires Turns(h.world.ctrl, w'.ctrl, e.event) && Rated(h.world.ctrl, h.journal)
    ensures Rated(w'.ctrl, h.journal + [e])
  {
    forall agent ensures RatedAs(w'.ctrl, h.journal + [e], agent) {
      assert RatedAs(h.world.ctrl, h.journal, agent);
      StepRates(net, h.world, w', e, agent);
      StepKeepsRatedAs(h.world.ctrl, w'.ctrl, h.journal, e, agent);
    }
  }

  /** Entry `k` opened action `id`, and its bond was priced at the agent's score of that moment. */
  ghost predicate PricedAt(journal: seq<Entry>, k: int, id: nat, a: Action) {
    && 0 <= k < |journal|
    && journal[k].event == Opened(id, a.agent, a.invoiceId, a.claim, a.amount, a.reasoning)
    && a.bondRequired == BondRequired(a.amount, Sum(Score(a.agent), journal[..k]))
  }

  ghost predicate Priced(c: Controller, journal: seq<Entry>) {
    forall id :: id in c.actions ==> exists k :: PricedAt(journal, k, id, c.actions[id])
  }

  lemma StepKeepsPriced(net: Net, h: History, w': World, e: Entry)
    requires Numbered(h.world.ctrl) && Explains(net, h.world, w', e) && Turns(h.world.ctrl, w'.ctrl, e.event)
    requires Rated(h.world.ctrl, h.journal) && Priced(h.world.ctrl, h.journal)
    ensures Priced(w'.ctrl, h.journal + [e])
  {
    var c, after := h.world.ctrl, h.journal + [e];
    forall id | id in w'.ctrl.actions ensures exists k :: PricedAt(after, k, id, w'.ctrl.actions[id]) {
      if e.event.Opened? && e.event.id == id {
        assert after[..|h.journal|] == h.journal;
        assert RatedAs(c, h.journal, e.event.agent);
        assert PricedAt(after, |h.journal|, id, w'.ctrl.actions[id]);
      } else {
        var k :| PricedAt(h.journal, k, id, c.actions[id]);
        assert after[..k] == h.journal[..k];
        assert PricedAt(after, k, id, w'.ctrl.actions[id]);
      }
    }
  }

  /** Entry `k` paid action `id`'s invoice, and its challenge window runs from that moment. */
  ghost predicate OpenedAt(journal: seq<Entry>, k: int, id: nat, windowEnd: nat, windowSecs: nat) {
    && 0 <= k < |journal|
    && journal[k].event.Paid? && journal[k].event.id == id
    && windowEnd == journal[k].time + windowSecs * 1_000
  }

  ghost predicate Windowed(c: Controller, journal: seq<Entry>, windowSecs: nat) {
    && c.windowSecs == windowSecs
    && forall id :: id in c.actions && Settled(c.actions[id].status) ==>
         exists k :: OpenedAt(journal, k, id, c.actions[id].windowEnd, windowSecs)
  }

  lemma StepKeepsWindowed(net: Net, h: History, w': World, e: Entry, windowSecs: nat)
    requires Explains(net, h.world, w', e) && Turns(h.world.ctrl, w'.ctrl, e.event)
    requires Windowed(h.world.ctrl, h.journal, windowSecs)
    ensures Windowed(w'.ctrl, h.journal + [e], windowSecs)
  {
    var c, c', after := h.world.ctrl, w'.ctrl, h.journal + [e];
    forall id | id in c'.actions && Settled(c'.actions[id].status)
      ensures exists k :: OpenedAt(after, k, id, c'.actions[id].windowEnd, windowSecs)
    {
      if e.event.Paid? && e.event.id == id {
        assert OpenedAt(after, |h.journal|, id, c'.actions[id].windowEnd, windowSecs);
      } else {
        var k :| OpenedAt(h.journal, k, id, c.actions[id].windowEnd, windowSecs);
        assert OpenedAt(after, k, id, c'.actions[id].windowEnd, windowSecs);
      }
    }
  }

  lemma StepKeepsCalls(c: Controller, c': Controller, journal: seq<Entry>, e: Entry)
    requires Numbered(c) && Numbered(c') && Turns(c, c', e.event)
    requires Sum(Calls, journal) == Tally(CallsMade, c.actions, c.nextId)
    ensures Sum(Calls, journal + [e]) == Tally(CallsMade, c'.actions, c'.nextId)
  {
    SumSnoc(Calls, journal, e);
    TallyMoves(CallsMade, c, c', e.event);
  }

  lemma {:induction false} CallsBounded(actions: map<nat, Action>, n: nat)
    requires forall i :: 0 <= i < n ==> i in actions
    ensures 0 <= Tally(CallsMade, actions, n) <= 4 * n
  {
    if n > 0 {
      CallsBounded(actions, n - 1);
    }
  }
}
