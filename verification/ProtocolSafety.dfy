/** Every step of the protocol keeps its invariant. */
module ProtocolSafety {
  import opened Prelude
  import opened Authorization
  import opened Shipments
  import opened Actions
  import opened Conversations
  import opened Protocol
  import opened ProtocolInvariant

  // ---- steps of a single transaction ----

  lemma TxStepKeepsSafe(w: World, t: TxId, v: World)
    requires Safe(w) && TxStep(w, t, v)
    ensures Safe(v)
  {
    TxStepKeepsTables(w, t, v);
    TxStepKeepsTransactions(w, t, v);
  }

  lemma TxStepKeepsTables(w: World, t: TxId, v: World)
    requires TablesOk(w) && TxStep(w, t, v)
    ensures TablesOk(v)
  {
  }

  lemma TxStepKeepsTransactions(w: World, t: TxId, v: World)
    requires TransactionsOk(w) && TxStep(w, t, v)
    ensures TransactionsOk(v)
  {
  }

  lemma SafeTransactionFits(w: World, t: TxId)
    requires Safe(w)
    ensures Known(w, t)
  {
  }

  lemma SettingIsQuiet(w: World, t: TxId, tx: Tx)
    requires Fits(w, t, tx) && !EffectPending(tx) && PendingOf(w.txs, t) == None
    requires tx.pc.UseCaseReading? || tx.pc.UseCaseWriting? ==> AttemptOf(w.txs, t) == Some(tx.action)
    ensures QuietStep(w, t, SetTx(w, t, tx))
  {
  }

  lemma DroppingIsQuiet(w: World, t: TxId)
    requires PendingOf(w.txs, t) == None
    ensures QuietStep(w, t, DropTx(w, t)) && QuietStep(w, t, w)
  {
  }

  /** A transaction without an uncommitted row interferes with nobody. */
  lemma SettingRowlessIsQuiet(w: World, t: TxId, tx: Tx)
    requires TxOk(w.actions, tx) && TurnOk(w.conversations.Keys, tx) && tx.row.None? && PendingOf(w.txs, t) == None
    ensures QuietStep(w, t, SetTx(w, t, tx))
  {
    SettingIsQuiet(w, t, tx);
  }

  lemma ConfirmStartIsQuiet(w: World, t: TxId, owner: Owner, action: ActionId, granted: set<Permission>)
    ensures QuietStep(w, t, ConfirmStart(w, t, owner, action, granted))
  {
    if ConfirmStart(w, t, owner, action, granted) != w {
      var tx := NewTx(Claiming, owner, action, w.actions[action].conversation).(granted := granted);
      SettingRowlessIsQuiet(w, t, tx);
    }
  }

  /** A claim holder moves on: same row identity, so its locks stay its own. */
  lemma AdvanceFits(w: World, t: TxId, tx: Tx)
    requires Known(w, t) && t in w.txs && IsClaimHolder(w.txs[t])
    requires TxOk(w.actions, tx) && !HasAnswer(tx) && !tx.pc.Running?
    requires tx.row.Some? && tx.action == w.txs[t].action && SameRequest(tx.row.value, w.txs[t].row.value)
    ensures Fits(w, t, tx)
  {
    forall u | u in w.txs && u != t ensures Apart(tx, w.txs[u]) {
      assert Apart(w.txs[t], w.txs[u]);
    }
  }

  lemma FailRowIsQuiet(w: World, t: TxId, reason: FailureReason, at: int)
    requires Known(w, t) && t in w.txs && (w.txs[t].pc.ReadingShipment? || w.txs[t].pc.UseCaseReading?)
    ensures QuietStep(w, t, FailRow(w, t, reason, at))
  {
    var tx := FailRow(w, t, reason, at).txs[t];
    AdvanceFits(w, t, tx);
    SettingIsQuiet(w, t, tx);
  }

  lemma ReadShipmentIsTxStep(w: World, t: TxId, at: int)
    requires Known(w, t)
    ensures TxStep(w, t, ReadShipment(w, t, at))
  {
    if At(w, t, ReadingShipment) {
      var p := w.txs[t].row.value.proposal;
      match ExpectationFailure(p, Visible(w.shipments, p.shipment))
      case Some(reason) => FailRowIsQuiet(w, t, reason, at);
      case None => AdvanceFits(w, t, ReadShipment(w, t, at).txs[t]);
    }
  }

  lemma UseCaseReadIsQuiet(w: World, t: TxId, at: int)
    requires Known(w, t)
    ensures QuietStep(w, t, UseCaseRead(w, t, at))
  {
    if t in w.txs && w.txs[t].pc.UseCaseReading? {
      FailRowIsQuiet(w, t, ShipmentRefused, at);
      var loaded := Visible(w.shipments, w.txs[t].row.value.proposal.shipment);
      var p := w.txs[t].row.value.proposal;
      if loaded.Some? && (p.kind.TransitionStatus? ==> CanTransition(loaded.value.status, p.targetStatus.value)) {
        var tx := w.txs[t].(pc := UseCaseWriting(w.txs[t].pc.seen, loaded.value));
        AdvanceFits(w, t, tx);
        SettingIsQuiet(w, t, tx);
      }
    }
  }

  lemma UseCaseRefuseIsQuiet(w: World, t: TxId, at: int)
    requires Known(w, t)
    ensures QuietStep(w, t, UseCaseRefuse(w, t, at))
  {
    if t in w.txs && w.txs[t].pc.UseCaseReading? {
      FailRowIsQuiet(w, t, ShipmentRefused, at);
    }
  }

  /** The shipment write moves its transaction on; the action tables do not see it. */
  lemma UseCaseWriteMovesTx(w: World, t: TxId)
    ensures var v := UseCaseWrite(w, t);
            && v.actions == w.actions && v.audit == w.audit && v.proposedWith == w.proposedWith
            && v.conversations == w.conversations
            && (v.txs == w.txs
                || (&& t in w.txs && w.txs[t].pc.UseCaseWriting? && t in v.txs && v.txs[t].pc.MarkingExecuted?
                    && v.txs == w.txs[t := w.txs[t].(pc := v.txs[t].pc)]))
  {
  }

  lemma UseCaseWriteIsTxStep(w: World, t: TxId)
    requires Known(w, t)
    ensures TxStep(w, t, UseCaseWrite(w, t))
  {
    UseCaseWriteMovesTx(w, t);
    var v := UseCaseWrite(w, t);
    if v.txs != w.txs {
      AdvanceFits(w, t, w.txs[t].(pc := v.txs[t].pc));
    }
  }

  lemma MarkExecutedIsQuiet(w: World, t: TxId, at: int)
    requires Known(w, t)
    ensures QuietStep(w, t, MarkRowExecuted(w, t, at))
  {
    if t in w.txs && w.txs[t].pc.MarkingExecuted? {
      AdvanceFits(w, t, MarkRowExecuted(w, t, at).txs[t]);
    }
  }

  /** A transaction that does not hold the lock of a pending row holds no row of its conversation. */
  lemma OtherRowsElsewhere(w: World, u: TxId, a: ActionId)
    requires TransactionsOk(w) && OneActive(w.actions) && u in w.txs && w.txs[u].row.Some?
    requires a in w.actions && w.actions[a].status.PendingConfirmation? && w.txs[u].action != a
    ensures w.txs[u].row.value.conversation != w.actions[a].conversation
  {
    assert TxOk(w.actions, w.txs[u]);
    if Inserts(w.txs[u]) {
      assert !HasActive(w.actions, w.txs[u].row.value.conversation);
    }
  }

  lemma UpdatedRowIsApart(w: World, t: TxId, tx: Tx)
    requires TransactionsOk(w) && OneActive(w.actions) && Updates(w.actions, tx)
    requires !RowLocked(w.txs, t, tx.action)
    ensures forall u :: u in w.txs && u != t ==> Apart(tx, w.txs[u])
  {
    forall u | u in w.txs && u != t && w.txs[u].row.Some? ensures Apart(tx, w.txs[u]) {
      OtherRowsElsewhere(w, u, tx.action);
    }
  }

  lemma ClaimIsQuiet(w: World, t: TxId, at: int)
    requires Safe(w) && Known(w, t)
    ensures QuietStep(w, t, ClaimRow(w, t, at))
  {
    if At(w, t, Claiming) {
      DroppingIsQuiet(w, t);
      if !RowLocked(w.txs, t, w.txs[t].action) && w.actions[w.txs[t].action].status.PendingConfirmation? {
        assert AtRest(w.actions[w.txs[t].action]);
        ClaimedRowFits(w, t, ClaimedTx(w.txs[t], w.actions[w.txs[t].action], at), at);
        SettingIsQuiet(w, t, ClaimedTx(w.txs[t], w.actions[w.txs[t].action], at));
      }
    }
  }

  lemma ClaimedRowFits(w: World, t: TxId, tx: Tx, at: int)
    requires TransactionsOk(w) && OneActive(w.actions) && t in w.txs && MayClaim(w.actions, w.txs[t])
    requires !RowLocked(w.txs, t, w.txs[t].action)
    requires AtRest(w.actions[w.txs[t].action]) && w.actions[w.txs[t].action].status.PendingConfirmation?
    requires tx == ClaimedTx(w.txs[t], w.actions[w.txs[t].action], at) && w.txs[t].trail == []
    ensures Fits(w, t, tx)
  {
    UpdatedRowIsApart(w, t, tx);
  }

  lemma CancelIsQuiet(w: World, t: TxId, owner: Owner, action: ActionId, at: int)
    requires Safe(w)
    ensures QuietStep(w, t, Cancel(w, t, owner, action, at))
  {
    if t !in w.txs && !RowLocked(w.txs, t, action) && action in w.actions
       && w.actions[action].status.PendingConfirmation?
    {
      CancelTxHolds(w, owner, action, at);
      CancelledRowFits(w, t, CancelTx(owner, action, w.actions[action], at));
      SettingIsQuiet(w, t, CancelTx(owner, action, w.actions[action], at));
    }
  }

  lemma CancelTxHolds(w: World, owner: Owner, action: ActionId, at: int)
    requires TablesOk(w) && action in w.actions && w.actions[action].status.PendingConfirmation?
    ensures HoldsOutcome(w.actions, CancelTx(owner, action, w.actions[action], at))
  {
    assert AtRest(w.actions[action]);
  }

  lemma CancelledRowFits(w: World, t: TxId, tx: Tx)
    requires TransactionsOk(w) && OneActive(w.actions) && tx.pc.Committing? && HoldsOutcome(w.actions, tx)
    requires !RowLocked(w.txs, t, tx.action)
    ensures Fits(w, t, tx)
  {
    UpdatedRowIsApart(w, t, tx);
  }

  lemma TurnStartIsQuiet(w: World, t: TxId, owner: Owner, c: ConversationId, question: string,
                          requested: Option<Option<Continuation>>)
    ensures QuietStep(w, t, TurnStart(w, t, owner, c, question, requested))
  {
    if t !in w.txs {
      SettingRowlessIsQuiet(w, t, NewTx(Preparing(question, requested), owner, 0, c));
    }
  }

  lemma PrepareIsQuiet(w: World, t: TxId)
    requires Known(w, t)
    ensures QuietStep(w, t, Prepare(w, t))
  {
    if t in w.txs && w.txs[t].pc.Preparing? {
      DroppingIsQuiet(w, t);
      if IsOpenTo(w.conversations, w.txs[t].conversation, w.txs[t].owner) {
        var tx, conv := w.txs[t], w.conversations[w.txs[t].conversation];
        var choice := ChooseContinuation(tx.pc.requested, BuildContinuation(conv.continuation));
        if choice.Some? {
          SettingRowlessIsQuiet(w, t, PreparedTx(tx, conv, tx.pc.question, choice.value));
        }
      }
    }
  }

  lemma RunAgentIsQuiet(w: World, t: TxId, granted: set<Permission>, answer: AgentResult)
    requires Known(w, t)
    ensures QuietStep(w, t, RunAgent(w, t, granted, answer))
  {
    if t in w.txs && w.txs[t].pc.Running? && Backed(answer, granted) {
      if answer.proposal.None? {
        SettingRowlessIsQuiet(w, t, w.txs[t].(pc := Completing(answer), granted := granted));
      } else {
        SettingRowlessIsQuiet(w, t, w.txs[t].(pc := Proposing(answer), granted := granted));
      }
    }
  }

  lemma ProposeIsQuiet(w: World, t: TxId)
    requires Known(w, t)
    ensures QuietStep(w, t, Propose(w, t))
  {
    if t in w.txs && w.txs[t].pc.Proposing? {
      DroppingIsQuiet(w, t);
      SettingRowlessIsQuiet(w, t, w.txs[t].(pc := Inserting(w.txs[t].pc.answer)));
    }
  }

  lemma InsertIsQuiet(w: World, t: TxId, action: ActionId)
    requires Known(w, t)
    ensures QuietStep(w, t, Insert(w, t, action))
  {
    if t in w.txs && w.txs[t].pc.Inserting? && action !in w.actions && !RowLocked(w.txs, t, action)
       && !SlotLocked(w.txs, t, w.txs[t].conversation)
    {
      DroppingIsQuiet(w, t);
      if !HasActive(w.actions, w.txs[t].conversation) {
        InsertedRowFits(w, t, action);
        SettingIsQuiet(w, t, InsertTx(w.txs[t], action));
      }
    }
  }

  lemma InsertedRowFits(w: World, t: TxId, action: ActionId)
    requires Known(w, t) && t in w.txs && w.txs[t].pc.Inserting?
    requires action !in w.actions && !RowLocked(w.txs, t, action)
    requires !SlotLocked(w.txs, t, w.txs[t].conversation) && !HasActive(w.actions, w.txs[t].conversation)
    ensures Fits(w, t, InsertTx(w.txs[t], action))
  {
  }

  // ---- commits ----

  /** Committing an updated row: the action comes to rest in the status the row carries. */
  lemma CommitUpdateKeepsTables(w: World, tx: Tx, v: World)
    requires TablesOk(w) && HoldsOutcome(w.actions, tx)
    requires v.actions == w.actions[tx.action := tx.row.value]
    requires v.audit == w.audit[tx.action := w.audit[tx.action] + tx.trail]
    requires v.proposedWith == w.proposedWith && v.conversations == w.conversations
    ensures TablesOk(v)
  {
    var row := tx.row.value;
    assert TrailFor(row.status) == [WasProposed] + tx.trail;
    RestingRowKeepsTrails(w.actions, w.audit, tx.action, row, v.actions, v.audit);
    RestingRowKeepsRest(w.actions, tx.action, row, v.actions);
    RestingRowKeepsProposals(w.actions, w.proposedWith, w.conversations.Keys, tx.action, row, v.actions);
  }

  lemma RestingRowKeepsTrails(rows: Rows, audit: map<ActionId, seq<AuditEvent>>, a: ActionId, row: Action,
                              rows': Rows, audit': map<ActionId, seq<AuditEvent>>)
    requires TrailsMatch(rows, audit) && a in rows
    requires rows' == rows[a := row] && audit'.Keys == audit.Keys && audit'[a] == TrailFor(row.status)
    requires forall b :: b in audit && b != a ==> audit'[b] == audit[b]
    ensures TrailsMatch(rows', audit')
  {
  }

  lemma RestingRowKeepsRest(rows: Rows, a: ActionId, row: Action, rows': Rows)
    requires RowsRest(rows) && OneActive(rows) && AtRest(row) && !IsActive(row) && rows' == rows[a := row]
    ensures RowsRest(rows') && OneActive(rows')
  {
  }

  lemma RestingRowKeepsProposals(rows: Rows, proposedWith: map<ActionId, set<Permission>>, known: set<ConversationId>,
                                 a: ActionId, row: Action, rows': Rows)
    requires ProposalsBacked(rows, proposedWith, known) && a in rows && SameRequest(row, rows[a])
    requires rows' == rows[a := row]
    ensures ProposalsBacked(rows', proposedWith, known)
  {
  }

  lemma CommitUpdateKeepsTransactions(w: World, t: TxId, v: World)
    requires TransactionsOk(w) && t in w.txs && HoldsOutcome(w.actions, w.txs[t])
    requires v.actions == w.actions[w.txs[t].action := w.txs[t].row.value]
    requires v.conversations == w.conversations && v.txs == w.txs - {t}
    ensures TransactionsOk(v)
  {
    forall u | u in v.txs ensures TxOk(v.actions, v.txs[u]) {
      assert TxOk(w.actions, w.txs[u]) && Apart(w.txs[t], w.txs[u]);
    }
    forall u | u in v.txs && Inserts(v.txs[u]) ensures !HasActive(v.actions, v.txs[u].row.value.conversation) {
      assert !HasActive(w.actions, w.txs[u].row.value.conversation);
    }
  }

  lemma CommitRowKeepsSafe(w: World, t: TxId)
    requires Safe(w) && t in w.txs && HoldsOutcome(w.actions, w.txs[t])
    ensures Safe(DropTx(CommitRow(w, w.txs[t]), t))
  {
    var dropped := DropTx(CommitRow(w, w.txs[t]), t);
    CommitUpdateKeepsTables(w, w.txs[t], dropped);
    CommitUpdateKeepsTransactions(w, t, dropped);
  }

  lemma CommitOutcomeKeepsSafe(w: World, t: TxId)
    requires Safe(w) && Known(w, t) && t in w.txs && w.txs[t].pc.Committing?
    ensures Safe(CommitOutcome(w, t))
  {
    var tx := w.txs[t];
    var dropped := DropTx(CommitRow(w, tx), t);
    CommitRowKeepsSafe(w, t);
    if tx.pc.reply.Some? {
      FollowUpKeepsSafe(dropped, t, NewTx(Notifying(tx.pc.reply.value), tx.owner, tx.action, tx.conversation));
    }
  }

  lemma FollowUpKeepsSafe(w: World, t: TxId, tx: Tx)
    requires Safe(w) && tx.pc.Notifying? && Unwritten(tx)
    ensures Safe(SetTx(w, t, tx))
  {
    TxStepKeepsSafe(w, t, SetTx(w, t, tx));
  }

  /** Committing a turn that proposes: a new pending action in a conversation that had none. */
  lemma CommitInsertKeepsTables(w: World, tx: Tx, v: World)
    requires TablesOk(w) && HoldsInsert(w.actions, tx) && TurnOk(w.conversations.Keys, tx)
    requires !HasActive(w.actions, tx.row.value.conversation)
    requires v.actions == w.actions[tx.action := tx.row.value]
    requires v.audit == w.audit[tx.action := tx.trail]
    requires v.proposedWith == w.proposedWith[tx.action := tx.granted]
    requires v.conversations.Keys == w.conversations.Keys
    ensures TablesOk(v)
  {
    NewRowRests(w.actions, w.audit, tx, v.actions, v.audit);
    NewRowIsAlone(w.actions, tx.action, tx.row.value, v.actions);
    NewRowIsBacked(w.actions, w.proposedWith, w.conversations.Keys, tx, v.actions, v.proposedWith);
  }

  lemma NewRowRests(rows: Rows, audit: map<ActionId, seq<AuditEvent>>, tx: Tx, rows': Rows,
                    audit': map<ActionId, seq<AuditEvent>>)
    requires RowsRest(rows) && TrailsMatch(rows, audit) && HoldsInsert(rows, tx)
    requires rows' == rows[tx.action := tx.row.value] && audit' == audit[tx.action := tx.trail]
    ensures RowsRest(rows') && TrailsMatch(rows', audit')
  {
  }

  lemma NewRowIsAlone(rows: Rows, a: ActionId, row: Action, rows': Rows)
    requires OneActive(rows) && a !in rows && !HasActive(rows, row.conversation) && rows' == rows[a := row]
    ensures OneActive(rows')
  {
  }

  lemma NewRowIsBacked(rows: Rows, proposedWith: map<ActionId, set<Permission>>, known: set<ConversationId>, tx: Tx,
                       rows': Rows, proposedWith': map<ActionId, set<Permission>>)
    requires ProposalsBacked(rows, proposedWith, known) && HoldsInsert(rows, tx) && TurnOk(known, tx)
    requires rows' == rows[tx.action := tx.row.value] && proposedWith' == proposedWith[tx.action := tx.granted]
    ensures ProposalsBacked(rows', proposedWith', known)
  {
  }

  lemma CommitInsertKeepsTransactions(w: World, t: TxId, v: World)
    requires TransactionsOk(w) && t in w.txs && HoldsInsert(w.actions, w.txs[t])
    requires v.actions == w.actions[w.txs[t].action := w.txs[t].row.value]
    requires v.conversations.Keys == w.conversations.Keys && v.txs == w.txs - {t}
    ensures TransactionsOk(v)
  {
    forall u | u in v.txs ensures TxOk(v.actions, v.txs[u]) {
      assert TxOk(w.actions, w.txs[u]) && Apart(w.txs[t], w.txs[u]);
    }
    forall u | u in v.txs && Inserts(v.txs[u]) ensures !HasActive(v.actions, v.txs[u].row.value.conversation) {
      assert !HasActive(w.actions, w.txs[u].row.value.conversation) && Apart(w.txs[t], w.txs[u]);
    }
  }

  /** What the single commit of a turn writes. */
  lemma CompleteTurnWrites(w: World, t: TxId)
    requires Known(w, t) && t in w.txs && w.txs[t].pc.Completing? && w.audit.Keys == w.actions.Keys
    ensures var tx, v := w.txs[t], CompleteTurn(w, t);
            && v.conversations.Keys == w.conversations.Keys
            && v.txs == w.txs - {t}
            && v.writes == w.writes && v.orphans == w.orphans && v.shipments == w.shipments
            && (tx.row.None? ==> v.actions == w.actions && v.audit == w.audit && v.proposedWith == w.proposedWith)
            && (tx.row.Some? ==>
                  && v.actions == w.actions[tx.action := tx.row.value]
                  && v.audit == w.audit[tx.action := tx.trail]
                  && v.proposedWith == w.proposedWith[tx.action := tx.granted])
  {
    var tx := w.txs[t];
    assert [] + tx.trail == tx.trail;
  }

  lemma CompleteTurnKeepsSafe(w: World, t: TxId)
    requires Safe(w) && Known(w, t) && t in w.txs && w.txs[t].pc.Completing?
    ensures Safe(CompleteTurn(w, t))
  {
    var v := CompleteTurn(w, t);
    CompleteTurnWrites(w, t);
    if w.txs[t].row.Some? {
      CommitInsertKeepsTables(w, w.txs[t], v);
      CommitInsertKeepsTransactions(w, t, v);
    } else {
      TxStepKeepsSafe(w, t, v);
    }
  }

  lemma NotifyIsTxStep(w: World, t: TxId)
    ensures TxStep(w, t, Notify(w, t))
  {
  }

  lemma StatusReadIsQuiet(w: World, t: TxId, owner: Owner, s: ShipmentId, target: ShipmentStatus)
    ensures QuietStep(w, t, StatusRead(w, t, owner, s, target))
  {
  }

  // ---- all steps, all runs ----

  predicate IsQuietEvent(e: Event) {
    || e.EConfirmStart? || e.EClaim? || e.EUseCaseRead? || e.EUseCaseRefuse? || e.EMarkExecuted? || e.ECancel?
    || e.ETurnStart? || e.EPrepare? || e.ERunAgent? || e.EPropose? || e.EInsert? || e.EStatusRead?
  }

  lemma QuietEventIsQuiet(w: World, e: Event)
    requires IsQuietEvent(e)
    requires Safe(w) && Known(w, e.t)
    ensures QuietStep(w, e.t, Step(w, e))
  {
    match e
    case EConfirmStart(t, owner, action, granted) => ConfirmStartIsQuiet(w, t, owner, action, granted);
    case EClaim(t, at) => ClaimIsQuiet(w, t, at);
    case EUseCaseRead(t, at) => UseCaseReadIsQuiet(w, t, at);
    case EUseCaseRefuse(t, at) => UseCaseRefuseIsQuiet(w, t, at);
    case EMarkExecuted(t, at) => MarkExecutedIsQuiet(w, t, at);
    case ECancel(t, owner, action, at) => CancelIsQuiet(w, t, owner, action, at);
    case ETurnStart(t, owner, c, question, requested) => TurnStartIsQuiet(w, t, owner, c, question, requested);
    case EPrepare(t) => PrepareIsQuiet(w, t);
    case ERunAgent(t, granted, answer) => RunAgentIsQuiet(w, t, granted, answer);
    case EPropose(t) => ProposeIsQuiet(w, t);
    case EInsert(t, action) => InsertIsQuiet(w, t, action);
    case EStatusRead(t, owner, s, target) => StatusReadIsQuiet(w, t, owner, s, target);
  }

  lemma CrashIsTxStep(w: World, t: TxId)
    ensures TxStep(w, t, CrashTx(w, t))
  {
  }

  lemma StatusWriteIsTxStep(w: World, t: TxId)
    ensures TxStep(w, t, StatusWriteBack(w, t))
  {
  }

  lemma ShipmentEditIsTxStep(w: World, e: Event)
    requires e.EUpdateShipment? || e.ECreateShipment?
    ensures TxStep(w, 0, Step(w, e))
  {
  }

  lemma ConversationEditIsTxStep(w: World, e: Event)
    requires e.ECreateConversation? || e.EDeleteConversation?
    ensures TxStep(w, 0, Step(w, e))
  {
    match e
    case ECreateConversation(c, owner) => CreationIsTxStep(w, c, owner);
    case EDeleteConversation(c) => DeletionIsTxStep(w, c);
  }

  lemma CreationIsTxStep(w: World, c: ConversationId, owner: Owner)
    ensures TxStep(w, 0, CreateConversation(w, c, owner))
  {
  }

  lemma DeletionIsTxStep(w: World, c: ConversationId)
    ensures TxStep(w, 0, DeleteConversation(w, c))
  {
  }

  lemma StepKeepsSafe(w: World, e: Event)
    requires Safe(w)
    ensures Safe(Step(w, e))
  {
    var v := Step(w, e);
    if e.EUpdateShipment? || e.ECreateShipment? {
      ShipmentEditIsTxStep(w, e);
      TxStepKeepsSafe(w, 0, v);
    } else if e.ECreateConversation? || e.EDeleteConversation? {
      ConversationEditIsTxStep(w, e);
      TxStepKeepsSafe(w, 0, v);
    } else {
      SafeTransactionFits(w, e.t);
      if e.ECommitOutcome? || e.ECompleteTurn? {
        CommitStepKeepsSafe(w, e);
      } else {
        RequestStepIsTxStep(w, e);
        TxStepKeepsSafe(w, e.t, v);
      }
    }
  }

  lemma RequestStepIsTxStep(w: World, e: Event)
    requires IsQuietEvent(e) || e.ENotify? || e.EReadShipment? || e.EUseCaseWrite? || e.EStatusWrite? || e.ECrash?
    requires Safe(w) && Known(w, e.t)
    ensures TxStep(w, e.t, Step(w, e))
  {
    match e
    case ENotify(t) => NotifyIsTxStep(w, t);
    case EReadShipment(t, at) => ReadShipmentIsTxStep(w, t, at);
    case EUseCaseWrite(t) => UseCaseWriteIsTxStep(w, t);
    case EStatusWrite(t) => StatusWriteIsTxStep(w, t);
    case ECrash(t) => CrashIsTxStep(w, t);
    case _ => QuietEventIsQuiet(w, e);
  }

  /** Action rows change only when a confirmation, a cancellation or a turn commits. */
  lemma OtherStepKeepsRows(w: World, e: Event)
    requires Safe(w) && !e.ECommitOutcome? && !e.ECompleteTurn?
    ensures Step(w, e).actions == w.actions
  {
    if e.EUpdateShipment? || e.ECreateShipment? {
      ShipmentEditIsTxStep(w, e);
    } else if e.ECreateConversation? || e.EDeleteConversation? {
      ConversationEditIsTxStep(w, e);
    } else {
      SafeTransactionFits(w, e.t);
      RequestStepIsTxStep(w, e);
    }
  }

  lemma CommitStepKeepsSafe(w: World, e: Event)
    requires e.ECommitOutcome? || e.ECompleteTurn?
    requires Safe(w) && Known(w, e.t)
    ensures Safe(Step(w, e))
  {
    if e.t in w.txs && w.txs[e.t].pc.Committing? && e.ECommitOutcome? {
      CommitOutcomeKeepsSafe(w, e.t);
    } else if e.t in w.txs && w.txs[e.t].pc.Completing? && e.ECompleteTurn? {
      CompleteTurnKeepsSafe(w, e.t);
    }
  }
}
