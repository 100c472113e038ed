/**
 Repeated effects. An action can take effect again only after another writer has restored
 the state it expects; and if no status write is stale, a transition takes effect at most once.
 */
module ProtocolAttempts {
  import opened Prelude
  import opened Authorization
  import opened Shipments
  import opened Actions
  import opened Conversations
  import opened Protocol
  import opened ProtocolInvariant
  import opened ProtocolSafety
  import opened ProtocolHistory

  // ---- what the history says about one action ----

  /** The write does what the proposal asks for. */
  predicate Performs(x: Write, p: Proposal) {
    && x.shipment == p.shipment
    && match p.kind
       case TransitionStatus => x.StatusWrite? && Some(x.after) == p.targetStatus
       case UpdateNotes => x.NotesWrite? && p.newNotes.Some? && x.notesAfter == p.newNotes
  }

  /** The write puts the shipment back into the state the proposal expects. */
  predicate Restores(x: Write, p: Proposal) {
    && x.shipment == p.shipment
    && match p.kind
       case TransitionStatus => x.StatusWrite? && x.after == p.expectedStatus
       case UpdateNotes => x.NotesWrite? && x.notesAfter == p.expectedNotes
  }

  predicate IsExpected(p: Proposal, shipments: map<ShipmentId, Shipment>) {
    && p.shipment in shipments
    && match p.kind
       case TransitionStatus => shipments[p.shipment].status == p.expectedStatus
       case UpdateNotes => shipments[p.shipment].notes == p.expectedNotes
  }

  /** Every agent write performs a stored proposal, under the permissions a confirmation requires. */
  ghost predicate WritesAuthorized(ws: seq<Write>, rows: Rows) {
    forall i :: 0 <= i < |ws| && ws[i].agent.Some? ==>
      && ws[i].agent.value in rows
      && Performs(ws[i], rows[ws[i].agent.value].proposal)
      && MayConfirm(rows[ws[i].agent.value].proposal.kind, ws[i].granted)
  }

  /** Every status write was a lifecycle step from the status its transaction had read. */
  ghost predicate WritesAllowed(ws: seq<Write>) {
    forall i :: 0 <= i < |ws| && ws[i].StatusWrite? ==> CanTransition(ws[i].seen, ws[i].after)
  }

  /** After the last effect of `a`, some other write restored what its proposal expects. */
  ghost predicate RestoredSince(ws: seq<Write>, a: ActionId, p: Proposal) {
    exists k :: 0 <= k < |ws| && Restores(ws[k], p) && forall j :: k <= j < |ws| ==> ws[j].agent != Some(a)
  }

  /** Between any two effects of `a`, some other write restored what its proposal expects. */
  ghost predicate Separated(ws: seq<Write>, a: ActionId, p: Proposal) {
    forall i, j :: 0 <= i < j < |ws| && ws[i].agent == Some(a) && ws[j].agent == Some(a) ==>
      exists k :: i < k < j && Restores(ws[k], p) && ws[k].agent != Some(a)
  }

  ghost predicate RowRestored(w: World, a: ActionId)
    requires a in w.actions
  {
    && (EffectsBy(w.writes, a) > 0 ==> w.actions[a].proposal.shipment in w.shipments)
    && (EffectsBy(w.writes, a) > 0 && IsExpected(w.actions[a].proposal, w.shipments) ==>
          RestoredSince(w.writes, a, w.actions[a].proposal))
    && Separated(w.writes, a, w.actions[a].proposal)
  }

  ghost predicate AttemptRestored(w: World, a: ActionId) {
    && a in w.actions
    && (EffectsBy(w.writes, a) > 0 ==> RestoredSince(w.writes, a, w.actions[a].proposal))
  }

  ghost predicate Restoring(w: World) {
    && WritesAuthorized(w.writes, w.actions)
    && WritesAllowed(w.writes)
    && (forall a :: a in w.actions ==> RowRestored(w, a))
    && (forall t :: AttemptOf(w.txs, t).Some? ==> AttemptRestored(w, AttemptOf(w.txs, t).value))
  }

  // ---- appending to the history ----

  lemma RestoredAppend(ws: seq<Write>, x: Write, a: ActionId, p: Proposal)
    requires x.agent != Some(a)
    requires RestoredSince(ws, a, p) || Restores(x, p)
    ensures RestoredSince(ws + [x], a, p)
  {
    if RestoredSince(ws, a, p) {
      var k :| 0 <= k < |ws| && Restores(ws[k], p) && forall j :: k <= j < |ws| ==> ws[j].agent != Some(a);
      assert Restores((ws + [x])[k], p);
    } else {
      assert Restores((ws + [x])[|ws|], p);
    }
  }

  lemma SeparatedAppend(ws: seq<Write>, x: Write, a: ActionId, p: Proposal)
    requires Separated(ws, a, p)
    requires x.agent == Some(a) && EffectsBy(ws, a) > 0 ==> RestoredSince(ws, a, p)
    ensures Separated(ws + [x], a, p)
  {
    var ws' := ws + [x];
    forall i, j | 0 <= i < j < |ws'| && ws'[i].agent == Some(a) && ws'[j].agent == Some(a)
      ensures exists k :: i < k < j && Restores(ws'[k], p) && ws'[k].agent != Some(a)
    {
      if j < |ws| {
        assert ws'[i] == ws[i] && ws'[j] == ws[j];
        var k :| i < k < j && Restores(ws[k], p) && ws[k].agent != Some(a);
        assert ws'[k] == ws[k];
      } else {
        EffectCounts(ws, a, i);
        var k :| 0 <= k < |ws| && Restores(ws[k], p) && forall j :: k <= j < |ws| ==> ws[j].agent != Some(a);
        assert ws'[k] == ws[k];
      }
    }
  }

  /** A write changes the expected field only by restoring it or by leaving it. */
  lemma WriteAndExpectation(p: Proposal, shipments: map<ShipmentId, Shipment>, x: Write, details: Details)
    requires x.shipment in shipments
    requires IsExpected(p, shipments[x.shipment := Written(shipments[x.shipment], x, details)])
    ensures Restores(x, p) || IsExpected(p, shipments)
  {
  }

  /** What an action performs is not what it expects. */
  lemma PerformingLeaves(p: Proposal, shipments: map<ShipmentId, Shipment>, x: Write, details: Details)
    requires AsksForChange(p) && Performs(x, p) && x.shipment in shipments
    ensures !IsExpected(p, shipments[x.shipment := Written(shipments[x.shipment], x, details)])
  {
  }

  lemma AppendKeepsRow(w: World, v: World, x: Write, a: ActionId)
    requires a in w.actions && RowRestored(w, a) && AsksForChange(w.actions[a].proposal)
    requires Appends(w, v, x) && v.actions == w.actions
    requires x.agent == Some(a) ==> Performs(x, w.actions[a].proposal) && AttemptRestored(w, a)
    ensures RowRestored(v, a)
  {
    var p := w.actions[a].proposal;
    EffectsByAppend(w.writes, x, a);
    SeparatedAppend(w.writes, x, a, p);
    if IsExpected(p, v.shipments) {
      var details :| v.shipments == w.shipments[x.shipment := Written(w.shipments[x.shipment], x, details)];
      if x.agent == Some(a) {
        PerformingLeaves(p, w.shipments, x, details);
      } else {
        WriteAndExpectation(p, w.shipments, x, details);
        if EffectsBy(v.writes, a) > 0 {
          RestoredAppend(w.writes, x, a, p);
        }
      }
    }
  }

  lemma AppendKeepsAttempt(w: World, v: World, x: Write, a: ActionId)
    requires AttemptRestored(w, a) && Appends(w, v, x) && v.actions == w.actions && x.agent != Some(a)
    ensures AttemptRestored(v, a)
  {
    EffectsByAppend(w.writes, x, a);
    if EffectsBy(v.writes, a) > 0 {
      RestoredAppend(w.writes, x, a, w.actions[a].proposal);
    }
  }

  lemma AppendKeepsHistory(w: World, v: World, x: Write)
    requires WritesAuthorized(w.writes, w.actions) && WritesAllowed(w.writes)
    requires v.writes == w.writes + [x] && v.actions == w.actions
    requires x.StatusWrite? ==> CanTransition(x.seen, x.after)
    requires x.agent.Some? ==>
               && x.agent.value in w.actions && Performs(x, w.actions[x.agent.value].proposal)
               && MayConfirm(w.actions[x.agent.value].proposal.kind, x.granted)
    ensures WritesAuthorized(v.writes, v.actions) && WritesAllowed(v.writes)
  {
  }

  /** A step that appends a write keeps the property, whoever writes. */
  lemma AppendKeepsRestoring(w: World, v: World, t: TxId, x: Write)
    requires Safe(w) && Restoring(w) && Appends(w, v, x) && v.actions == w.actions
    requires x.StatusWrite? ==> CanTransition(x.seen, x.after)
    requires forall u :: AttemptOf(v.txs, u) == None || AttemptOf(v.txs, u) == AttemptOf(w.txs, u)
    requires x.agent.Some? ==>
               && AttemptOf(w.txs, t) == x.agent && x.agent.value in w.actions
               && Performs(x, w.actions[x.agent.value].proposal)
               && MayConfirm(w.actions[x.agent.value].proposal.kind, x.granted)
    requires x.agent.Some? ==> forall u :: AttemptOf(v.txs, u) != x.agent
    ensures Restoring(v)
  {
    AppendKeepsHistory(w, v, x);
    forall a | a in v.actions ensures RowRestored(v, a) {
      assert RowRestored(w, a);
      AppendKeepsRow(w, v, x, a);
    }
    forall u | AttemptOf(v.txs, u).Some? ensures AttemptRestored(v, AttemptOf(v.txs, u).value) {
      assert AttemptRestored(w, AttemptOf(v.txs, u).value);
      AppendKeepsAttempt(w, v, x, AttemptOf(v.txs, u).value);
    }
  }

  /** Steps that write no shipment: rows keep their requests, and attempts may only end. */
  ghost predicate SameHistory(w: World, v: World) {
    && v.writes == w.writes
    && (forall s :: s in w.shipments ==> s in v.shipments && v.shipments[s] == w.shipments[s])
    && (forall a :: a in w.actions ==> a in v.actions && v.actions[a].proposal == w.actions[a].proposal)
    && (forall u :: AttemptOf(v.txs, u) == None || AttemptOf(v.txs, u) == AttemptOf(w.txs, u))
  }

  lemma SameHistoryKeepsRestoring(w: World, v: World)
    requires Restoring(w) && SameHistory(w, v)
    ensures Restoring(v)
  {
    forall a | a in v.actions ensures RowRestored(v, a) {
      if a in w.actions {
        assert RowRestored(w, a);
      } else {
        UnknownHasNoEffect(w, a);
        forall i | 0 <= i < |v.writes| ensures v.writes[i].agent != Some(a) {
          assert w.writes[i].agent != Some(a);
        }
      }
    }
    forall u | AttemptOf(v.txs, u).Some? ensures AttemptRestored(v, AttemptOf(v.txs, u).value) {
      assert AttemptRestored(w, AttemptOf(w.txs, u).value);
    }
  }

  lemma UnknownHasNoEffect(w: World, a: ActionId)
    requires WritesAuthorized(w.writes, w.actions) && a !in w.actions
    ensures EffectsBy(w.writes, a) == 0
    ensures forall i :: 0 <= i < |w.writes| ==> w.writes[i].agent != Some(a)
  {
    NoAgentNoEffect(w.writes, a);
  }

  lemma {:induction false} NoAgentNoEffect(ws: seq<Write>, a: ActionId)
    requires forall i :: 0 <= i < |ws| ==> ws[i].agent != Some(a)
    ensures EffectsBy(ws, a) == 0
  {
    if ws != [] {
      NoAgentNoEffect(ws[..|ws| - 1], a);
    }
  }

  /** Passing the service's check means the shipment is in the expected state. */
  lemma ReadShipmentChecks(w: World, t: TxId, at: int)
    requires Known(w, t)
    ensures var v := ReadShipment(w, t, at);
            && v.writes == w.writes && v.shipments == w.shipments && v.actions == w.actions
            && v.conversations == w.conversations
            && (forall u :: u != t ==> AttemptOf(v.txs, u) == AttemptOf(w.txs, u))
            && (AttemptOf(v.txs, t) == None || AttemptOf(v.txs, t) == AttemptOf(w.txs, t)
                || (t in w.txs && AttemptOf(v.txs, t) == Some(w.txs[t].action) && w.txs[t].action in w.actions
                    && IsExpected(w.actions[w.txs[t].action].proposal, w.shipments)))
  {
    if At(w, t, ReadingShipment) {
      var p := w.txs[t].row.value.proposal;
      match ExpectationFailure(p, Visible(w.shipments, p.shipment))
      case Some(reason) => FailRowIsQuiet(w, t, reason, at);
      case None =>
    }
  }

  lemma ReadShipmentKeepsRestoring(w: World, t: TxId, at: int)
    requires Restoring(w) && Known(w, t)
    ensures Restoring(ReadShipment(w, t, at))
  {
    ReadShipmentChecks(w, t, at);
    AttemptKeepsRestoring(w, t, ReadShipment(w, t, at));
  }

  lemma AttemptKeepsRestoring(w: World, t: TxId, v: World)
    requires Restoring(w)
    requires v.writes == w.writes && v.shipments == w.shipments && v.actions == w.actions
    requires forall u :: u != t ==> AttemptOf(v.txs, u) == AttemptOf(w.txs, u)
    requires AttemptOf(v.txs, t) == None || AttemptOf(v.txs, t) == AttemptOf(w.txs, t)
             || (t in w.txs && AttemptOf(v.txs, t) == Some(w.txs[t].action) && w.txs[t].action in w.actions
                 && IsExpected(w.actions[w.txs[t].action].proposal, w.shipments))
    ensures Restoring(v)
  {
    if AttemptOf(v.txs, t) == None || AttemptOf(v.txs, t) == AttemptOf(w.txs, t) {
      SameHistoryKeepsRestoring(w, v);
    } else {
      assert RowRestored(w, w.txs[t].action);
      NewAttemptKeepsRestoring(w, t, w.txs[t].action, v);
    }
  }

  lemma NewAttemptKeepsRestoring(w: World, t: TxId, a: ActionId, v: World)
    requires Restoring(w) && AttemptRestored(w, a)
    requires v.writes == w.writes && v.shipments == w.shipments && v.actions == w.actions
    requires AttemptOf(v.txs, t) == Some(a)
    requires forall u :: u != t ==> AttemptOf(v.txs, u) == AttemptOf(w.txs, u)
    ensures Restoring(v)
  {
    forall b | b in v.actions ensures RowRestored(v, b) {
      assert RowRestored(w, b);
    }
    forall u | AttemptOf(v.txs, u).Some? ensures AttemptRestored(v, AttemptOf(v.txs, u).value) {
      assert AttemptRestored(w, AttemptOf(v.txs, u).value);
    }
  }

  /** The write of a claimed request performs the stored proposal, by a legal step, as it was granted. */
  lemma AgentWriteIsLegal(w: World, t: TxId)
    requires Safe(w) && Restoring(w) && Known(w, t) && t in w.txs && w.txs[t].pc.UseCaseWriting?
    requires w.txs[t].row.Some? && w.txs[t].row.value.proposal.shipment in w.shipments
    ensures w.txs[t].action in w.actions
    ensures var a := w.txs[t].action;
            var x := AgentWrite(w.txs[t], w.shipments[w.txs[t].row.value.proposal.shipment]);
            && x.agent == Some(a) && Performs(x, w.actions[a].proposal)
            && MayConfirm(w.actions[a].proposal.kind, x.granted)
            && (x.StatusWrite? ==> CanTransition(x.seen, x.after))
  {
    assert AsksForChange(w.actions[w.txs[t].action].proposal);
  }

  lemma UseCaseWriteAppends(w: World, t: TxId)
    requires MayWrite(w, t)
    ensures var v := UseCaseWrite(w, t);
            && Appends(w, v, WriteOf(w, t)) && v.actions == w.actions
            && (forall u :: AttemptOf(v.txs, u) == if u == t then None else AttemptOf(w.txs, u))
  {
  }

  lemma UseCaseWriteKeepsRestoring(w: World, t: TxId)
    requires Safe(w) && Restoring(w) && Known(w, t)
    ensures Restoring(UseCaseWrite(w, t))
  {
    if MayWrite(w, t) {
      AgentWriteIsLegal(w, t);
      AttemptIsAlone(w, t);
      UseCaseWriteAppends(w, t);
      AppendKeepsRestoring(w, UseCaseWrite(w, t), t, WriteOf(w, t));
    } else {
      assert UseCaseWrite(w, t) == w;
    }
  }

  lemma AttemptIsAlone(w: World, t: TxId)
    requires Safe(w) && AttemptOf(w.txs, t).Some?
    ensures forall u :: u != t ==> AttemptOf(w.txs, u) != AttemptOf(w.txs, t)
  {
    forall u | u != t ensures AttemptOf(w.txs, u) != AttemptOf(w.txs, t) {
      if u in w.txs {
        assert TxOk(w.actions, w.txs[t]) && TxOk(w.actions, w.txs[u]) && Apart(w.txs[t], w.txs[u]);
      }
    }
  }

  lemma StatusWriteKeepsRestoring(w: World, t: TxId)
    requires Safe(w) && Restoring(w) && Known(w, t)
    ensures Restoring(StatusWriteBack(w, t))
  {
    var v := StatusWriteBack(w, t);
    if v != w {
      AppendKeepsRestoring(w, v, t, v.writes[|w.writes|]);
    }
  }

  lemma UpdateKeepsRestoring(w: World, s: ShipmentId, notes: Option<string>, details: Details)
    requires Safe(w) && Restoring(w)
    ensures Restoring(UpdateShipmentRow(w, s, notes, details))
  {
    var v := UpdateShipmentRow(w, s, notes, details);
    if v != w {
      AppendKeepsRestoring(w, v, 0, v.writes[|w.writes|]);
    }
  }

  // ---- steps that leave the history alone ----

  lemma QuietIsSameHistory(w: World, t: TxId, v: World)
    requires QuietStep(w, t, v)
    ensures SameHistory(w, v)
  {
  }

  lemma CommitIsSameHistory(w: World, t: TxId)
    requires Known(w, t)
    ensures SameHistory(w, CommitOutcome(w, t))
  {
    if t in w.txs && w.txs[t].pc.Committing? {
      CommitOutcomeWrites(w, t);
      UpdateIsSameHistory(w, t, w.txs[t].action, w.txs[t].row.value, CommitOutcome(w, t));
    }
  }

  lemma UpdateIsSameHistory(w: World, t: TxId, a: ActionId, row: Action, v: World)
    requires v.writes == w.writes && v.shipments == w.shipments
    requires a in w.actions && SameRequest(row, w.actions[a]) && v.actions == w.actions[a := row]
    requires forall u :: u != t ==> (u in v.txs <==> u in w.txs) && (u in v.txs ==> v.txs[u] == w.txs[u])
    requires t in v.txs ==> v.txs[t].pc.Notifying?
    ensures SameHistory(w, v)
  {
  }

  lemma CompleteTurnIsSameHistory(w: World, t: TxId)
    requires Safe(w) && Known(w, t)
    ensures SameHistory(w, CompleteTurn(w, t))
  {
    if t in w.txs && w.txs[t].pc.Completing? {
      CompleteTurnWrites(w, t);
      InsertedRowIsNew(w, t);
      DroppingIsSameHistory(w, t, CompleteTurn(w, t));
    }
  }

  lemma InsertedRowIsNew(w: World, t: TxId)
    requires Known(w, t) && t in w.txs && w.txs[t].pc.Completing?
    ensures w.txs[t].row.Some? ==> w.txs[t].action !in w.actions
  {
  }

  lemma DroppingIsSameHistory(w: World, t: TxId, v: World)
    requires v.writes == w.writes && v.shipments == w.shipments && v.txs == w.txs - {t}
    requires forall a :: a in w.actions ==> a in v.actions && v.actions[a] == w.actions[a]
    ensures SameHistory(w, v)
  {
  }

  lemma CrashIsSameHistory(w: World, t: TxId)
    ensures SameHistory(w, CrashTx(w, t))
  {
  }

  lemma NotifyIsSameHistory(w: World, t: TxId)
    ensures SameHistory(w, Notify(w, t))
  {
  }

  lemma EditIsSameHistory(w: World, e: Event)
    requires e.ECreateShipment? || e.ECreateConversation? || e.EDeleteConversation?
    ensures SameHistory(w, Step(w, e))
  {
  }

  predicate ChangesHistory(e: Event) {
    e.EReadShipment? || e.EUseCaseWrite? || e.EStatusWrite? || e.EUpdateShipment?
  }

  lemma OtherStepIsSameHistory(w: World, e: Event)
    requires Safe(w) && !ChangesHistory(e)
    ensures SameHistory(w, Step(w, e))
  {
    if IsQuietEvent(e) {
      SafeTransactionFits(w, e.t);
      QuietEventIsQuiet(w, e);
      QuietIsSameHistory(w, e.t, Step(w, e));
    } else if e.ECommitOutcome? {
      SafeTransactionFits(w, e.t);
      CommitIsSameHistory(w, e.t);
    } else if e.ECompleteTurn? {
      SafeTransactionFits(w, e.t);
      CompleteTurnIsSameHistory(w, e.t);
    } else if e.ECrash? {
      CrashIsSameHistory(w, e.t);
    } else if e.ENotify? {
      NotifyIsSameHistory(w, e.t);
    } else {
      EditIsSameHistory(w, e);
    }
  }

  lemma StepKeepsRestoring(w: World, e: Event)
    requires Safe(w) && Restoring(w)
    ensures Restoring(Step(w, e))
  {
    if ChangesHistory(e) {
      WriteStepKeepsRestoring(w, e);
    } else {
      OtherStepIsSameHistory(w, e);
      SameHistoryKeepsRestoring(w, Step(w, e));
    }
  }

  lemma WriteStepKeepsRestoring(w: World, e: Event)
    requires Safe(w) && Restoring(w) && ChangesHistory(e)
    ensures Restoring(Step(w, e))
  {
    match e
    case EReadShipment(t, at) =>
      SafeTransactionFits(w, t);
      ReadShipmentKeepsRestoring(w, t, at);
    case EUseCaseWrite(t) =>
      SafeTransactionFits(w, t);
      UseCaseWriteKeepsRestoring(w, t);
    case EStatusWrite(t) =>
      SafeTransactionFits(w, t);
      StatusWriteKeepsRestoring(w, t);
    case EUpdateShipment(s, notes, details) => UpdateKeepsRestoring(w, s, notes, details);
  }
}
