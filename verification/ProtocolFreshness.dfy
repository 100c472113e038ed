/** How often a transition takes effect: once, and again at most once for each stale write to its shipment. */
module ProtocolFreshness {
  import opened Prelude
  import opened Authorization
  import opened Shipments
  import opened Actions
  import opened Conversations
  import opened Protocol
  import opened ProtocolInvariant
  import opened ProtocolSafety
  import opened ProtocolHistory
  import opened ProtocolAttempts

  /** The status the write replaced is the one its transaction had read. */
  predicate IsFresh(x: Write) {
    x.StatusWrite? ==> x.seen == x.before
  }

  /** Another writer than `a` sets the status of `s`, having decided so on an outdated read. */
  predicate IsStaleFor(x: Write, s: ShipmentId, a: ActionId) {
    !IsFresh(x) && x.shipment == s && x.agent != Some(a)
  }

  function StaleWrites(ws: seq<Write>, s: ShipmentId, a: ActionId): nat {
    if ws == [] then 0
    else StaleWrites(ws[..|ws| - 1], s, a) + (if IsStaleFor(ws[|ws| - 1], s, a) then 1 else 0)
  }

  lemma StaleWritesAppend(ws: seq<Write>, x: Write, s: ShipmentId, a: ActionId)
    ensures StaleWrites(ws + [x], s, a) == StaleWrites(ws, s, a) + (if IsStaleFor(x, s, a) then 1 else 0)
  {
    assert (ws + [x])[..|ws|] == ws;
  }

  /** No other writer set the status of `s` on an outdated read. */
  predicate OthersFresh(ws: seq<Write>, s: ShipmentId, a: ActionId) {
    forall k :: 0 <= k < |ws| && ws[k].shipment == s && ws[k].agent != Some(a) ==> IsFresh(ws[k])
  }

  lemma {:induction false} FreshWritesAreNotStale(ws: seq<Write>, s: ShipmentId, a: ActionId)
    ensures StaleWrites(ws, s, a) == 0 <==> OthersFresh(ws, s, a)
  {
    if ws != [] {
      var front, last := ws[..|ws| - 1], ws[|ws| - 1];
      FreshWritesAreNotStale(front, s, a);
      assert forall k :: 0 <= k < |front| ==> front[k] == ws[k];
      assert OthersFresh(ws, s, a) <==> OthersFresh(front, s, a) && !IsStaleFor(last, s, a);
    }
  }

  predicate IsTransition(rows: Rows, a: ActionId) {
    a in rows && rows[a].proposal.kind.TransitionStatus?
  }

  /** The shipment stands before the transition's target. */
  predicate LiesAhead(p: Proposal, shipments: map<ShipmentId, Shipment>) {
    && p.shipment in shipments && p.targetStatus.Some?
    && Rank(shipments[p.shipment].status) < Rank(p.targetStatus.value)
  }

  /** One effect more than stale writes at most, and none more while the target still lies ahead. */
  predicate Bounded(ws: seq<Write>, shipments: map<ShipmentId, Shipment>, a: ActionId, p: Proposal) {
    && EffectsBy(ws, a) <= StaleWrites(ws, p.shipment, a) + 1
    && (EffectsBy(ws, a) > 0 ==> p.shipment in shipments)
    && (LiesAhead(p, shipments) ==> EffectsBy(ws, a) <= StaleWrites(ws, p.shipment, a))
  }

  /** An attempt under way may add one effect more. */
  predicate MayRepeat(ws: seq<Write>, a: ActionId, p: Proposal) {
    EffectsBy(ws, a) <= StaleWrites(ws, p.shipment, a)
  }

  ghost predicate Once(w: World) {
    && (forall a :: IsTransition(w.actions, a) ==> Bounded(w.writes, w.shipments, a, w.actions[a].proposal))
    && (forall t :: AttemptOf(w.txs, t).Some? && IsTransition(w.actions, AttemptOf(w.txs, t).value) ==>
          MayRepeat(w.writes, AttemptOf(w.txs, t).value, w.actions[AttemptOf(w.txs, t).value].proposal))
  }

  /** The write is a lifecycle step from the status its writer read, and records the status it replaces. */
  predicate IsStatusStep(x: Write, shipments: map<ShipmentId, Shipment>)
    requires x.shipment in shipments
  {
    x.StatusWrite? ==> x.before == shipments[x.shipment].status && CanTransition(x.seen, x.after)
  }

  /** A fresh write climbs, so only a stale one can put the shipment back before the target. */
  lemma FreshWritesClimb(p: Proposal, shipments: map<ShipmentId, Shipment>, x: Write, details: Details)
    requires x.shipment in shipments && IsStatusStep(x, shipments) && (x.shipment != p.shipment || IsFresh(x))
    requires LiesAhead(p, shipments[x.shipment := Written(shipments[x.shipment], x, details)])
    requires p.shipment in shipments
    ensures LiesAhead(p, shipments)
  {
    if x.StatusWrite? {
      TransitionsClimb(x.seen, x.after);
    }
  }

  /** The transition's own write reaches its target. */
  lemma PerformingArrives(p: Proposal, shipments: map<ShipmentId, Shipment>, x: Write, details: Details)
    requires x.shipment in shipments && Performs(x, p) && p.kind.TransitionStatus?
    ensures !LiesAhead(p, shipments[x.shipment := Written(shipments[x.shipment], x, details)])
  {
  }

  lemma OwnWriteKeepsBound(ws: seq<Write>, shipments: map<ShipmentId, Shipment>, x: Write, details: Details,
                           a: ActionId, p: Proposal)
    requires x.shipment in shipments && x.agent == Some(a) && Performs(x, p) && p.kind.TransitionStatus?
    requires MayRepeat(ws, a, p)
    ensures Bounded(ws + [x], shipments[x.shipment := Written(shipments[x.shipment], x, details)], a, p)
  {
    EffectsByAppend(ws, x, a);
    StaleWritesAppend(ws, x, p.shipment, a);
    PerformingArrives(p, shipments, x, details);
  }

  lemma OtherWriteKeepsBound(ws: seq<Write>, shipments: map<ShipmentId, Shipment>, x: Write, details: Details,
                             a: ActionId, p: Proposal)
    requires x.shipment in shipments && IsStatusStep(x, shipments) && x.agent != Some(a)
    requires Bounded(ws, shipments, a, p)
    ensures Bounded(ws + [x], shipments[x.shipment := Written(shipments[x.shipment], x, details)], a, p)
  {
    EffectsByAppend(ws, x, a);
    StaleWritesAppend(ws, x, p.shipment, a);
    var after := shipments[x.shipment := Written(shipments[x.shipment], x, details)];
    if LiesAhead(p, after) && !IsStaleFor(x, p.shipment, a) && p.shipment in shipments {
      FreshWritesClimb(p, shipments, x, details);
    }
  }

  lemma AppendKeepsBound(w: World, v: World, x: Write, a: ActionId)
    requires Once(w) && Appends(w, v, x) && v.actions == w.actions && IsTransition(w.actions, a)
    requires IsStatusStep(x, w.shipments)
    requires x.agent == Some(a) ==>
               Performs(x, w.actions[a].proposal) && MayRepeat(w.writes, a, w.actions[a].proposal)
    ensures Bounded(v.writes, v.shipments, a, v.actions[a].proposal)
  {
    var p := w.actions[a].proposal;
    var details :| v.shipments == w.shipments[x.shipment := Written(w.shipments[x.shipment], x, details)];
    if x.agent == Some(a) {
      OwnWriteKeepsBound(w.writes, w.shipments, x, details, a, p);
    } else {
      OtherWriteKeepsBound(w.writes, w.shipments, x, details, a, p);
    }
  }

  lemma AppendKeepsOnce(w: World, v: World, t: TxId, x: Write)
    requires Once(w) && Appends(w, v, x) && v.actions == w.actions && IsStatusStep(x, w.shipments)
    requires forall u :: AttemptOf(v.txs, u) == None || AttemptOf(v.txs, u) == AttemptOf(w.txs, u)
    requires x.agent.Some? ==>
               && AttemptOf(w.txs, t) == x.agent && x.agent.value in w.actions
               && Performs(x, w.actions[x.agent.value].proposal)
    requires x.agent.Some? ==> forall u :: AttemptOf(v.txs, u) != x.agent
    ensures Once(v)
  {
    forall a | IsTransition(v.actions, a) ensures Bounded(v.writes, v.shipments, a, v.actions[a].proposal) {
      AppendKeepsBound(w, v, x, a);
    }
    forall u | AttemptOf(v.txs, u).Some? && IsTransition(v.actions, AttemptOf(v.txs, u).value)
      ensures MayRepeat(v.writes, AttemptOf(v.txs, u).value, v.actions[AttemptOf(v.txs, u).value].proposal)
    {
      var a := AttemptOf(v.txs, u).value;
      assert MayRepeat(w.writes, a, w.actions[a].proposal);
      EffectsByAppend(w.writes, x, a);
      StaleWritesAppend(w.writes, x, w.actions[a].proposal.shipment, a);
    }
  }

  lemma SameHistoryKeepsOnce(w: World, v: World)
    requires Once(w) && SameHistory(w, v) && Restoring(w)
    ensures Once(v)
  {
    forall a | IsTransition(v.actions, a) ensures Bounded(v.writes, v.shipments, a, v.actions[a].proposal) {
      if a in w.actions {
        SameHistoryKeepsBound(w, v, a);
      } else {
        UnknownHasNoEffect(w, a);
      }
    }
    forall u | AttemptOf(v.txs, u).Some? && IsTransition(v.actions, AttemptOf(v.txs, u).value)
      ensures MayRepeat(v.writes, AttemptOf(v.txs, u).value, v.actions[AttemptOf(v.txs, u).value].proposal)
    {
      assert AttemptRestored(w, AttemptOf(w.txs, u).value);
    }
  }

  lemma SameHistoryKeepsBound(w: World, v: World, a: ActionId)
    requires Once(w) && SameHistory(w, v) && IsTransition(v.actions, a) && a in w.actions
    ensures Bounded(v.writes, v.shipments, a, v.actions[a].proposal)
  {
    assert Bounded(w.writes, w.shipments, a, w.actions[a].proposal);
  }

  /** A check that passes finds the target still ahead. */
  lemma ExpectedLiesAhead(p: Proposal, shipments: map<ShipmentId, Shipment>)
    requires p.kind.TransitionStatus? && AsksForChange(p) && IsExpected(p, shipments)
    ensures LiesAhead(p, shipments)
  {
    TransitionsClimb(p.expectedStatus, p.targetStatus.value);
  }

  lemma AttemptKeepsOnce(w: World, t: TxId, v: World)
    requires Once(w) && ProposalsBacked(w.actions, w.proposedWith, w.conversations.Keys)
    requires v.writes == w.writes && v.shipments == w.shipments && v.actions == w.actions
    requires forall u :: u != t ==> AttemptOf(v.txs, u) == AttemptOf(w.txs, u)
    requires AttemptOf(v.txs, t) == None || AttemptOf(v.txs, t) == AttemptOf(w.txs, t)
             || (t in w.txs && AttemptOf(v.txs, t) == Some(w.txs[t].action) && w.txs[t].action in w.actions
                 && IsExpected(w.actions[w.txs[t].action].proposal, w.shipments))
    ensures Once(v)
  {
    forall u | AttemptOf(v.txs, u).Some? && IsTransition(v.actions, AttemptOf(v.txs, u).value)
      ensures MayRepeat(v.writes, AttemptOf(v.txs, u).value, v.actions[AttemptOf(v.txs, u).value].proposal)
    {
      var a := AttemptOf(v.txs, u).value;
      if AttemptOf(v.txs, u) != AttemptOf(w.txs, u) {
        ExpectedLiesAhead(w.actions[a].proposal, w.shipments);
      }
    }
  }

  lemma AgentWriteIsStatusStep(w: World, t: TxId)
    requires MayWrite(w, t) && (WriteOf(w, t).StatusWrite? ==> CanTransition(WriteOf(w, t).seen, WriteOf(w, t).after))
    ensures WriteOf(w, t).shipment in w.shipments && IsStatusStep(WriteOf(w, t), w.shipments)
  {
  }

  lemma UseCaseWriteKeepsOnce(w: World, t: TxId)
    requires Safe(w) && Restoring(w) && Once(w) && Known(w, t)
    ensures Once(UseCaseWrite(w, t))
  {
    if MayWrite(w, t) {
      AgentWriteIsLegal(w, t);
      AgentWriteIsStatusStep(w, t);
      AttemptIsAlone(w, t);
      UseCaseWriteAppends(w, t);
      AppendKeepsOnce(w, UseCaseWrite(w, t), t, WriteOf(w, t));
    } else {
      assert UseCaseWrite(w, t) == w;
    }
  }

  lemma StatusWriteKeepsOnce(w: World, t: TxId)
    requires Once(w) && Known(w, t)
    ensures Once(StatusWriteBack(w, t))
  {
    var v := StatusWriteBack(w, t);
    if v != w {
      AppendKeepsOnce(w, v, t, v.writes[|w.writes|]);
    }
  }

  lemma UpdateKeepsOnce(w: World, s: ShipmentId, notes: Option<string>, details: Details)
    requires Once(w)
    ensures Once(UpdateShipmentRow(w, s, notes, details))
  {
    var v := UpdateShipmentRow(w, s, notes, details);
    if v != w {
      AppendKeepsOnce(w, v, 0, v.writes[|w.writes|]);
    }
  }

  lemma StepKeepsOnce(w: World, e: Event)
    requires Safe(w) && Restoring(w) && Once(w)
    ensures Once(Step(w, e))
  {
    if ChangesHistory(e) {
      WriteStepKeepsOnce(w, e);
    } else {
      OtherStepIsSameHistory(w, e);
      SameHistoryKeepsOnce(w, Step(w, e));
    }
  }

  lemma WriteStepKeepsOnce(w: World, e: Event)
    requires Safe(w) && Restoring(w) && Once(w) && ChangesHistory(e)
    ensures Once(Step(w, e))
  {
    match e
    case EReadShipment(t, at) =>
      SafeTransactionFits(w, t);
      ReadShipmentChecks(w, t, at);
      AttemptKeepsOnce(w, t, ReadShipment(w, t, at));
    case EUseCaseWrite(t) =>
      SafeTransactionFits(w, t);
      UseCaseWriteKeepsOnce(w, t);
    case EStatusWrite(t) =>
      SafeTransactionFits(w, t);
      StatusWriteKeepsOnce(w, t);
    case EUpdateShipment(s, notes, details) => UpdateKeepsOnce(w, s, notes, details);
  }
}
