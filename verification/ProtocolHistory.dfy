/**
 Effects over whole runs: the history of shipment writes is compared with what the action rows report, and no effect
 is lost or invented.
 */
module ProtocolHistory {
  import opened Prelude
  import opened Authorization
  import opened Shipments
  import opened Actions
  import opened Conversations
  import opened Protocol
  import opened ProtocolInvariant
  import opened ProtocolSafety

  // ---- counting effects ----

  /** How many committed shipment writes execute action `a`. */
  function EffectsBy(ws: seq<Write>, a: ActionId): nat {
    if ws == [] then 0
    else EffectsBy(ws[..|ws| - 1], a) + (if ws[|ws| - 1].agent == Some(a) then 1 else 0)
  }

  lemma EffectsByAppend(ws: seq<Write>, x: Write, a: ActionId)
    ensures EffectsBy(ws + [x], a) == EffectsBy(ws, a) + (if x.agent == Some(a) then 1 else 0)
  {
    assert (ws + [x])[..|ws|] == ws;
  }

  lemma {:induction false} EffectCounts(ws: seq<Write>, a: ActionId, i: nat)
    requires i < |ws| && ws[i].agent == Some(a)
    ensures EffectsBy(ws, a) > 0
  {
    if i < |ws| - 1 {
      EffectCounts(ws[..|ws| - 1], a, i);
    }
  }

  predicate IsExecuted(rows: Rows, a: ActionId) {
    a in rows && rows[a].status.Executed?
  }

  ghost predicate AwaitsCommit(txs: map<TxId, Tx>, a: ActionId) {
    exists t :: PendingOf(txs, t) == Some(a)
  }

  /** Effects of `a` that no committed row or running request accounts for equal its orphans. */
  ghost predicate Balanced(w: World, a: ActionId) {
    EffectsBy(w.writes, a)
    == (if IsExecuted(w.actions, a) then 1 else 0) + w.orphans[a] + (if AwaitsCommit(w.txs, a) then 1 else 0)
  }

  ghost predicate Conserved(w: World) {
    forall a :: Balanced(w, a)
  }

  /** The write a step appends to the history. */
  ghost predicate Appends(w: World, v: World, x: Write) {
    && v.writes == w.writes + [x]
    && x.shipment in w.shipments
    && exists details :: v.shipments == w.shipments[x.shipment := Written(w.shipments[x.shipment], x, details)]
  }

  // ---- conservation ----

  /** Outside transaction `t`, the same effects await their commit. */
  ghost predicate SamePendingElsewhere(txs: map<TxId, Tx>, txs': map<TxId, Tx>, t: TxId) {
    forall u :: u != t ==> PendingOf(txs', u) == PendingOf(txs, u)
  }

  lemma SamePending(txs: map<TxId, Tx>, txs': map<TxId, Tx>, t: TxId, a: ActionId)
    requires SamePendingElsewhere(txs, txs', t)
    requires PendingOf(txs', t) == PendingOf(txs, t) || (PendingOf(txs, t) != Some(a) && PendingOf(txs', t) != Some(a))
    ensures AwaitsCommit(txs', a) == AwaitsCommit(txs, a)
  {
    if AwaitsCommit(txs, a) {
      var u :| PendingOf(txs, u) == Some(a);
      assert PendingOf(txs', u) == Some(a);
    }
    if AwaitsCommit(txs', a) {
      var u :| PendingOf(txs', u) == Some(a);
      assert PendingOf(txs, u) == Some(a);
    }
  }

  /** Only one request at a time can await the commit of an action. */
  lemma PendingIsUnique(w: World, t: TxId, u: TxId)
    requires Safe(w) && PendingOf(w.txs, t).Some? && PendingOf(w.txs, u) == PendingOf(w.txs, t)
    ensures t == u
  {
    assert TxOk(w.actions, w.txs[t]) && TxOk(w.actions, w.txs[u]);
    assert t != u ==> Apart(w.txs[t], w.txs[u]);
  }

  lemma SameLedgerConserves(w: World, t: TxId, v: World)
    requires Conserved(w) && v.writes == w.writes && v.orphans == w.orphans
    requires forall a :: IsExecuted(v.actions, a) == IsExecuted(w.actions, a)
    requires SamePendingElsewhere(w.txs, v.txs, t) && PendingOf(v.txs, t) == PendingOf(w.txs, t)
    ensures Conserved(v)
  {
    forall a ensures Balanced(v, a) {
      assert Balanced(w, a);
      SamePending(w.txs, v.txs, t, a);
    }
  }

  lemma QuietConserves(w: World, t: TxId, v: World)
    requires Conserved(w) && QuietStep(w, t, v)
    ensures Conserved(v)
  {
    SameLedgerConserves(w, t, v);
  }

  lemma OtherWriteConserves(w: World, t: TxId, x: Write, v: World)
    requires Conserved(w) && v.writes == w.writes + [x] && x.agent.None?
    requires v.orphans == w.orphans && v.actions == w.actions
    requires SamePendingElsewhere(w.txs, v.txs, t) && PendingOf(v.txs, t) == PendingOf(w.txs, t)
    ensures Conserved(v)
  {
    forall a ensures Balanced(v, a) {
      assert Balanced(w, a);
      EffectsByAppend(w.writes, x, a);
      SamePending(w.txs, v.txs, t, a);
    }
  }

  /** The agent's write: its effect is counted and awaits the commit of its row. */
  lemma AgentWriteConserves(w: World, t: TxId, x: Write, v: World)
    requires Safe(w) && Conserved(w) && t in w.txs && w.txs[t].pc.UseCaseWriting?
    requires v.writes == w.writes + [x] && x.agent == Some(w.txs[t].action)
    requires v.orphans == w.orphans && v.actions == w.actions
    requires SamePendingElsewhere(w.txs, v.txs, t) && PendingOf(v.txs, t) == Some(w.txs[t].action)
    ensures Conserved(v)
  {
    var a := w.txs[t].action;
    assert !AwaitsCommit(w.txs, a) by {
      ClaimHolderAlone(w, t);
    }
    forall b ensures Balanced(v, b) {
      assert Balanced(w, b);
      EffectsByAppend(w.writes, x, b);
      if b == a {
        assert AwaitsCommit(v.txs, a);
      } else {
        SamePending(w.txs, v.txs, t, b);
      }
    }
  }

  /** While one request holds the claim, no other request awaits the commit of that action. */
  lemma ClaimHolderAlone(w: World, t: TxId)
    requires Safe(w) && t in w.txs && w.txs[t].pc.UseCaseWriting?
    ensures !AwaitsCommit(w.txs, w.txs[t].action)
  {
    assert TxOk(w.actions, w.txs[t]);
    forall u ensures PendingOf(w.txs, u) != Some(w.txs[t].action) {
      if u in w.txs && u != t {
        assert TxOk(w.actions, w.txs[u]) && Apart(w.txs[t], w.txs[u]);
      }
    }
  }

  predicate Accounted(w: World, a: ActionId, v: World, settled: nat) {
    (if IsExecuted(v.actions, a) then 1 else 0) + v.orphans[a]
    == (if IsExecuted(w.actions, a) then 1 else 0) + w.orphans[a] + settled
  }

  /** The request awaiting a commit ends, and its effect, if it had one, is accounted for elsewhere. */
  lemma SettlingConserves(w: World, t: TxId, a: ActionId, v: World)
    requires Conserved(w) && v.writes == w.writes
    requires SamePendingElsewhere(w.txs, v.txs, t) && PendingOf(v.txs, t) == None
    requires PendingOf(w.txs, t) == None || PendingOf(w.txs, t) == Some(a)
    requires forall u :: u != t ==> PendingOf(w.txs, u) != Some(a)
    requires Accounted(w, a, v, if PendingOf(w.txs, t) == Some(a) then 1 else 0)
    requires forall b :: b != a ==> Accounted(w, b, v, 0)
    ensures Conserved(v)
  {
    forall b ensures Balanced(v, b) {
      assert Balanced(w, b);
      if b != a {
        assert Accounted(w, b, v, 0);
        SamePending(w.txs, v.txs, t, b);
      } else {
        assert forall u :: u != t ==> PendingOf(v.txs, u) == PendingOf(w.txs, u);
        assert !AwaitsCommit(v.txs, a);
        assert AwaitsCommit(w.txs, a) <==> PendingOf(w.txs, t) == Some(a);
      }
    }
  }

  /** A crash between the shipment commit and the action commit turns the awaited effect into an orphan. */
  lemma CrashConserves(w: World, t: TxId)
    requires Safe(w) && Conserved(w)
    ensures Conserved(CrashTx(w, t))
  {
    if PendingOf(w.txs, t).None? {
      SameLedgerConserves(w, t, CrashTx(w, t));
    } else {
      PendingElsewhereDiffers(w, t);
      OrphaningConserves(w, t);
    }
  }

  lemma PendingElsewhereDiffers(w: World, t: TxId)
    requires Safe(w) && PendingOf(w.txs, t).Some?
    ensures forall u :: u != t ==> PendingOf(w.txs, u) != PendingOf(w.txs, t)
  {
    forall u | u != t ensures PendingOf(w.txs, u) != PendingOf(w.txs, t) {
      if PendingOf(w.txs, u) == PendingOf(w.txs, t) {
        PendingIsUnique(w, t, u);
      }
    }
  }

  lemma OrphaningConserves(w: World, t: TxId)
    requires Conserved(w) && PendingOf(w.txs, t).Some?
    requires forall u :: u != t ==> PendingOf(w.txs, u) != PendingOf(w.txs, t)
    ensures Conserved(CrashTx(w, t))
  {
    SettlingConserves(w, t, w.txs[t].action, CrashTx(w, t));
  }

  /** The commit of the action row settles its awaited effect. */
  lemma CommitConserves(w: World, t: TxId)
    requires Safe(w) && Conserved(w) && t in w.txs && HoldsOutcome(w.actions, w.txs[t])
    ensures Conserved(CommitOutcome(w, t))
  {
    forall u | u != t ensures PendingOf(w.txs, u) != Some(w.txs[t].action) {
      OutcomeHolderAlone(w, t, u);
    }
    CommitAccounts(w, t);
    SettlingConserves(w, t, w.txs[t].action, CommitOutcome(w, t));
  }

  lemma CommitAccounts(w: World, t: TxId)
    requires t in w.txs && HoldsOutcome(w.actions, w.txs[t])
    ensures var a, v := w.txs[t].action, CommitOutcome(w, t);
            && v.writes == w.writes
            && SamePendingElsewhere(w.txs, v.txs, t) && PendingOf(v.txs, t) == None
            && (PendingOf(w.txs, t) == None || PendingOf(w.txs, t) == Some(a))
            && Accounted(w, a, v, if PendingOf(w.txs, t) == Some(a) then 1 else 0)
            && (forall b :: b != a ==> Accounted(w, b, v, 0))
  {
    CommitOutcomeWrites(w, t);
  }

  lemma OutcomeHolderAlone(w: World, t: TxId, u: TxId)
    requires Safe(w) && t in w.txs && HoldsOutcome(w.actions, w.txs[t]) && u != t
    ensures PendingOf(w.txs, u) != Some(w.txs[t].action)
  {
    if u in w.txs {
      assert TxOk(w.actions, w.txs[u]) && Apart(w.txs[t], w.txs[u]);
    }
  }

  lemma CommitOutcomeMovesTx(w: World, t: TxId)
    requires t in w.txs && w.txs[t].pc.Committing?
    ensures var v := CommitOutcome(w, t);
            && (forall u :: u != t ==> (u in v.txs <==> u in w.txs) && (u in v.txs ==> v.txs[u] == w.txs[u]))
            && (t in v.txs ==> v.txs[t].pc.Notifying?)
  {
  }

  lemma CommitOutcomeWrites(w: World, t: TxId)
    requires t in w.txs && HoldsOutcome(w.actions, w.txs[t])
    ensures var tx, v := w.txs[t], CommitOutcome(w, t);
            && v.actions == w.actions[tx.action := tx.row.value]
            && v.writes == w.writes && v.orphans == w.orphans && v.shipments == w.shipments
            && v.conversations == w.conversations
            && (forall u :: u != t ==> (u in v.txs <==> u in w.txs) && (u in v.txs ==> v.txs[u] == w.txs[u]))
            && (t in v.txs ==> v.txs[t].pc.Notifying?)
  {
    CommitOutcomeMovesTx(w, t);
  }

  lemma StepConserves(w: World, e: Event)
    requires Safe(w) && Conserved(w)
    ensures Conserved(Step(w, e))
  {
    if e.EUpdateShipment? || e.ECreateShipment? || e.ECreateConversation? || e.EDeleteConversation? {
      EditConserves(w, e);
    } else {
      SafeTransactionFits(w, e.t);
      if IsQuietEvent(e) {
        QuietEventIsQuiet(w, e);
        QuietConserves(w, e.t, Step(w, e));
      } else {
        EffectStepConserves(w, e);
      }
    }
  }

  lemma EditConserves(w: World, e: Event)
    requires e.EUpdateShipment? || e.ECreateShipment? || e.ECreateConversation? || e.EDeleteConversation?
    requires Conserved(w)
    ensures Conserved(Step(w, e))
  {
    var v := Step(w, e);
    if e.EUpdateShipment? && v != w {
      OtherWriteConserves(w, 0, v.writes[|w.writes|], v);
    } else {
      SameLedgerConserves(w, 0, v);
    }
  }

  lemma EffectStepConserves(w: World, e: Event)
    requires e.EReadShipment? || e.EUseCaseWrite? || e.EStatusWrite? || e.ECrash? || e.ECommitOutcome?
             || e.ECompleteTurn? || e.ENotify?
    requires Safe(w) && Conserved(w) && Known(w, e.t)
    ensures Conserved(Step(w, e))
  {
    match e
    case EReadShipment(t, at) => ReadShipmentConserves(w, t, at);
    case EUseCaseWrite(t) => UseCaseWriteConserves(w, t);
    case EStatusWrite(t) => StatusWriteConserves(w, t);
    case ECrash(t) => CrashConserves(w, t);
    case ECommitOutcome(t) => OutcomeConserves(w, t);
    case ECompleteTurn(t) => CompleteTurnConserves(w, t);
    case ENotify(t) => NotifyConserves(w, t);
  }

  lemma OutcomeConserves(w: World, t: TxId)
    requires Safe(w) && Conserved(w) && Known(w, t)
    ensures Conserved(CommitOutcome(w, t))
  {
    if t in w.txs && w.txs[t].pc.Committing? {
      CommitConserves(w, t);
    }
  }

  lemma NotifyConserves(w: World, t: TxId)
    requires Conserved(w)
    ensures Conserved(Notify(w, t))
  {
    SameLedgerConserves(w, t, Notify(w, t));
  }

  lemma ReadShipmentConserves(w: World, t: TxId, at: int)
    requires Conserved(w) && Known(w, t)
    ensures Conserved(ReadShipment(w, t, at))
  {
    if At(w, t, ReadingShipment) {
      var p := w.txs[t].row.value.proposal;
      match ExpectationFailure(p, Visible(w.shipments, p.shipment))
      case Some(reason) =>
        FailRowIsQuiet(w, t, reason, at);
        QuietConserves(w, t, FailRow(w, t, reason, at));
      case None => PassingConserves(w, t, ReadShipment(w, t, at));
    }
  }

  lemma PassingConserves(w: World, t: TxId, v: World)
    requires Conserved(w) && At(w, t, ReadingShipment) && t in v.txs && v.txs[t].pc.UseCaseReading?
    requires v == SetTx(w, t, v.txs[t])
    ensures Conserved(v)
  {
    SameLedgerConserves(w, t, v);
  }

  /** The use case may write: it has read the shipment, and the shipment is still there. */
  predicate MayWrite(w: World, t: TxId) {
    && t in w.txs && w.txs[t].pc.UseCaseWriting? && w.txs[t].row.Some?
    && w.txs[t].row.value.proposal.shipment in w.shipments
  }

  function WriteOf(w: World, t: TxId): Write
    requires MayWrite(w, t)
  {
    AgentWrite(w.txs[t], w.shipments[w.txs[t].row.value.proposal.shipment])
  }

  lemma UseCaseWriteAwaits(w: World, t: TxId)
    requires MayWrite(w, t)
    ensures var v := UseCaseWrite(w, t);
            && v.writes == w.writes + [WriteOf(w, t)] && WriteOf(w, t).agent == Some(w.txs[t].action)
            && v.orphans == w.orphans && v.actions == w.actions
            && SamePendingElsewhere(w.txs, v.txs, t) && PendingOf(v.txs, t) == Some(w.txs[t].action)
  {
  }

  lemma UseCaseWriteConserves(w: World, t: TxId)
    requires Safe(w) && Conserved(w) && Known(w, t)
    ensures Conserved(UseCaseWrite(w, t))
  {
    if MayWrite(w, t) {
      UseCaseWriteAwaits(w, t);
      AgentWriteConserves(w, t, WriteOf(w, t), UseCaseWrite(w, t));
    } else {
      assert UseCaseWrite(w, t) == w;
    }
  }

  lemma StatusWriteConserves(w: World, t: TxId)
    requires Conserved(w)
    ensures Conserved(StatusWriteBack(w, t))
  {
    var v := StatusWriteBack(w, t);
    if v != w {
      OtherWriteConserves(w, t, v.writes[|w.writes|], v);
    }
  }

  lemma CompleteTurnConserves(w: World, t: TxId)
    requires Safe(w) && Conserved(w) && Known(w, t)
    ensures Conserved(CompleteTurn(w, t))
  {
    if t in w.txs && w.txs[t].pc.Completing? {
      CompleteTurnWrites(w, t);
      NewRowConserves(w, t, CompleteTurn(w, t));
    }
  }

  lemma NewRowConserves(w: World, t: TxId, v: World)
    requires Conserved(w) && t in w.txs && w.txs[t].pc.Completing? && Known(w, t)
    requires v.writes == w.writes && v.orphans == w.orphans && v.txs == w.txs - {t}
    requires v.actions == (if w.txs[t].row.None? then w.actions else w.actions[w.txs[t].action := w.txs[t].row.value])
    ensures Conserved(v)
  {
    SameLedgerConserves(w, t, v);
  }
}
