/** Ownership over whole runs: actions, and the requests that act on them, belong to the owner of the conversation. */
module ProtocolOwnership {
  import opened Prelude
  import opened Authorization
  import opened Shipments
  import opened Actions
  import opened Conversations
  import opened Protocol
  import opened ProtocolInvariant
  import opened ProtocolSafety
  import opened ProtocolHistory
  import opened ProtocolTalk

  predicate BelongsTo(talks: Talks, c: ConversationId, owner: Owner) {
    c in talks && talks[c].owner == owner
  }

  /** The request has found its conversation. */
  predicate HasPlace(tx: Tx) {
    !tx.pc.Preparing? && !tx.pc.StatusLoaded?
  }

  predicate IsPlaced(talks: Talks, tx: Tx) {
    HasPlace(tx) ==> BelongsTo(talks, tx.conversation, tx.owner)
  }

  ghost predicate RowsPlaced(rows: Rows, talks: Talks) {
    forall a :: a in rows ==> BelongsTo(talks, rows[a].conversation, rows[a].owner)
  }

  ghost predicate TxsPlaced(talks: Talks, txs: map<TxId, Tx>) {
    forall t :: t in txs ==> IsPlaced(talks, txs[t])
  }

  ghost predicate Placed(w: World) {
    RowsPlaced(w.actions, w.conversations) && TxsPlaced(w.conversations, w.txs)
  }

  /** No conversation goes, and none changes hands. */
  ghost predicate OwnersKept(talks: Talks, talks': Talks) {
    forall c :: c in talks ==> BelongsTo(talks', c, talks[c].owner)
  }

  /** Only transaction `t` changes, and what it becomes is placed. */
  ghost predicate OnlyMoves(talks: Talks, txs: map<TxId, Tx>, t: TxId, txs': map<TxId, Tx>) {
    && (forall u :: u in txs' && u != t ==> u in txs && txs'[u] == txs[u])
    && (t in txs' ==> IsPlaced(talks, txs'[t]))
  }

  lemma MovesKeepPlaced(talks: Talks, txs: map<TxId, Tx>, t: TxId, talks': Talks, txs': map<TxId, Tx>)
    requires TxsPlaced(talks, txs) && OnlyMoves(talks, txs, t, txs') && OwnersKept(talks, talks')
    ensures TxsPlaced(talks', txs')
  {
  }

  // ---- conversations keep their owners ----

  lemma TurnCommitKeepsOwners(w: World, c: ConversationId, title: Option<Title>, messages: seq<Message>,
                              continuation: Option<Continuation>)
    ensures OwnersKept(w.conversations, CommitTurn(w, c, title, messages, continuation).conversations)
  {
  }

  lemma NotifyKeepsOwners(w: World, t: TxId)
    ensures OwnersKept(w.conversations, Notify(w, t).conversations)
  {
    if t in w.txs && w.txs[t].pc.Notifying? {
      TurnCommitKeepsOwners(w, w.txs[t].conversation, None, [Message(Assistant, w.txs[t].pc.body)], None);
    }
  }

  lemma CompletionKeepsOwners(w: World, t: TxId)
    ensures OwnersKept(w.conversations, CompleteTurn(w, t).conversations)
  {
    if t in w.txs && w.txs[t].pc.Completing? {
      var tx := w.txs[t];
      var rows := CommitRow(w, tx);
      var known := if tx.row.Some? then rows.(proposedWith := rows.proposedWith[tx.action := tx.granted]) else rows;
      assert known.conversations == w.conversations;
      TurnCommitKeepsOwners(known, tx.conversation, tx.title,
                            tx.messages + [Message(Assistant, tx.pc.answer.answer)], tx.pc.answer.continuation);
    }
  }

  lemma SpeakingKeepsOwners(w: World, e: Event)
    requires Speaks(e)
    ensures OwnersKept(w.conversations, Step(w, e).conversations)
  {
    match e
    case ENotify(t) => NotifyKeepsOwners(w, t);
    case ECompleteTurn(t) => CompletionKeepsOwners(w, t);
    case ECreateConversation(c, owner) =>
    case EDeleteConversation(c) =>
  }

  lemma StepKeepsOwners(w: World, e: Event)
    requires Safe(w)
    ensures OwnersKept(w.conversations, Step(w, e).conversations)
  {
    if Speaks(e) {
      SpeakingKeepsOwners(w, e);
    } else {
      StepIsSilent(w, e);
    }
  }

  // ---- rows ----

  lemma StepKeepsRowsPlaced(w: World, e: Event)
    requires Safe(w) && Placed(w)
    ensures RowsPlaced(Step(w, e).actions, w.conversations)
  {
    if e.ECommitOutcome? {
      OutcomeKeepsRowsPlaced(w, e.t);
      CommittedRowsArePlaced(w, e);
    } else if e.ECompleteTurn? {
      CompletionKeepsRowsPlaced(w, e.t);
      CommittedRowsArePlaced(w, e);
    } else {
      OtherStepKeepsRows(w, e);
    }
  }

  lemma CommittedRowsArePlaced(w: World, e: Event)
    requires e.ECommitOutcome? || e.ECompleteTurn?
    requires e.ECommitOutcome? ==> RowsPlaced(CommitOutcome(w, e.t).actions, w.conversations)
    requires e.ECompleteTurn? ==> RowsPlaced(CompleteTurn(w, e.t).actions, w.conversations)
    ensures RowsPlaced(Step(w, e).actions, w.conversations)
  {
  }

  lemma OutcomeKeepsRowsPlaced(w: World, t: TxId)
    requires Safe(w) && Placed(w)
    ensures RowsPlaced(CommitOutcome(w, t).actions, w.conversations)
  {
    SafeTransactionFits(w, t);
    if t in w.txs && w.txs[t].pc.Committing? {
      CommitOutcomeWrites(w, t);
      UpdatedRowIsPlaced(w.actions, w.conversations, w.txs[t].action, w.txs[t].row.value);
    }
  }

  lemma UpdatedRowIsPlaced(rows: Rows, talks: Talks, a: ActionId, row: Action)
    requires RowsPlaced(rows, talks) && a in rows && SameRequest(row, rows[a])
    ensures RowsPlaced(rows[a := row], talks)
  {
  }

  lemma CompletionKeepsRowsPlaced(w: World, t: TxId)
    requires Safe(w) && Placed(w)
    ensures RowsPlaced(CompleteTurn(w, t).actions, w.conversations)
  {
    SafeTransactionFits(w, t);
    if t in w.txs && w.txs[t].pc.Completing? {
      CompleteTurnWrites(w, t);
      assert IsPlaced(w.conversations, w.txs[t]);
    }
  }

  // ---- requests ----

  /** The moves of a request that keep its conversation and its owner, and its title with its question. */
  ghost predicate StaysPut(w: World, t: TxId, v: World) {
    && (forall u :: u in v.txs && u != t ==> u in w.txs && v.txs[u] == w.txs[u])
    && (t in v.txs && v.txs != w.txs ==>
          && t in w.txs && HasPlace(w.txs[t])
          && v.txs[t].conversation == w.txs[t].conversation && v.txs[t].owner == w.txs[t].owner
          && (v.txs[t].title.None?
              || (v.txs[t].title == w.txs[t].title && v.txs[t].messages == w.txs[t].messages)))
  }

  lemma StayingIsPlaced(w: World, t: TxId, v: World)
    requires Placed(w) && StaysPut(w, t, v)
    ensures OnlyMoves(w.conversations, w.txs, t, v.txs)
  {
    if t in v.txs && t in w.txs {
      assert IsPlaced(w.conversations, w.txs[t]);
    }
  }

  lemma FailureStays(w: World, t: TxId, reason: FailureReason, at: int)
    requires t in w.txs && HasPlace(w.txs[t])
    ensures StaysPut(w, t, FailRow(w, t, reason, at))
  {
  }

  lemma ClaimStays(w: World, t: TxId, at: int)
    ensures StaysPut(w, t, ClaimRow(w, t, at))
  {
  }

  lemma ReadStays(w: World, t: TxId, at: int)
    ensures StaysPut(w, t, ReadShipment(w, t, at))
  {
    if At(w, t, ReadingShipment) && w.txs[t].row.Some? {
      var p := w.txs[t].row.value.proposal;
      match ExpectationFailure(p, Visible(w.shipments, p.shipment))
      case Some(reason) => FailureStays(w, t, reason, at);
      case None => MovingOnStays(w, t, ReadShipment(w, t, at));
    }
  }

  /** Only the program counter, the grants or the row of the request change. */
  lemma MovingOnStays(w: World, t: TxId, v: World)
    requires t in w.txs && HasPlace(w.txs[t]) && t in v.txs && v == SetTx(w, t, v.txs[t])
    requires v.txs[t].conversation == w.txs[t].conversation && v.txs[t].owner == w.txs[t].owner
    requires v.txs[t].title == w.txs[t].title && v.txs[t].messages == w.txs[t].messages
    ensures StaysPut(w, t, v)
  {
  }

  lemma UseCaseReadStays(w: World, t: TxId, at: int)
    ensures StaysPut(w, t, UseCaseRead(w, t, at))
  {
    if t in w.txs && w.txs[t].pc.UseCaseReading? {
      FailureStays(w, t, ShipmentRefused, at);
    }
  }

  lemma UseCaseRefuseStays(w: World, t: TxId, at: int)
    ensures StaysPut(w, t, UseCaseRefuse(w, t, at))
  {
    if t in w.txs && w.txs[t].pc.UseCaseReading? {
      FailureStays(w, t, ShipmentRefused, at);
    }
  }

  lemma UseCaseWriteStays(w: World, t: TxId)
    ensures StaysPut(w, t, UseCaseWrite(w, t))
  {
    UseCaseWriteMovesTx(w, t);
  }

  lemma MarkingStays(w: World, t: TxId, at: int)
    ensures StaysPut(w, t, MarkRowExecuted(w, t, at))
  {
  }

  lemma OutcomeStays(w: World, t: TxId)
    ensures StaysPut(w, t, CommitOutcome(w, t))
  {
  }

  lemma NotifyStays(w: World, t: TxId)
    ensures StaysPut(w, t, Notify(w, t))
  {
  }

  lemma RunAgentStays(w: World, t: TxId, granted: set<Permission>, answer: AgentResult)
    ensures StaysPut(w, t, RunAgent(w, t, granted, answer))
  {
    var v := RunAgent(w, t, granted, answer);
    if v != w {
      MovingOnStays(w, t, v);
    }
  }

  lemma ProposeStays(w: World, t: TxId)
    ensures StaysPut(w, t, Propose(w, t))
  {
  }

  lemma InsertStays(w: World, t: TxId, action: ActionId)
    ensures StaysPut(w, t, Insert(w, t, action))
  {
  }

  lemma CompletionStays(w: World, t: TxId)
    ensures StaysPut(w, t, CompleteTurn(w, t))
  {
  }

  lemma CrashStays(w: World, t: TxId)
    ensures StaysPut(w, t, CrashTx(w, t))
  {
  }

  predicate IsConfirmationStep(e: Event) {
    || e.EClaim? || e.EReadShipment? || e.EUseCaseRead? || e.EUseCaseRefuse? || e.EUseCaseWrite?
    || e.EMarkExecuted? || e.ECommitOutcome? || e.ENotify?
  }

  lemma ConfirmationStays(w: World, e: Event)
    requires IsConfirmationStep(e)
    ensures StaysPut(w, e.t, Step(w, e))
  {
    match e
    case EClaim(t, at) => ClaimStays(w, t, at);
    case EReadShipment(t, at) => ReadStays(w, t, at);
    case EUseCaseRead(t, at) => UseCaseReadStays(w, t, at);
    case EUseCaseRefuse(t, at) => UseCaseRefuseStays(w, t, at);
    case EUseCaseWrite(t) => UseCaseWriteStays(w, t);
    case EMarkExecuted(t, at) => MarkingStays(w, t, at);
    case ECommitOutcome(t) => OutcomeStays(w, t);
    case ENotify(t) => NotifyStays(w, t);
  }

  predicate IsTurnStep(e: Event) {
    e.ERunAgent? || e.EPropose? || e.EInsert? || e.ECompleteTurn? || e.ECrash?
  }

  lemma TurnStays(w: World, e: Event)
    requires IsTurnStep(e)
    ensures StaysPut(w, e.t, Step(w, e))
  {
    match e
    case ERunAgent(t, granted, answer) => RunAgentStays(w, t, granted, answer);
    case EPropose(t) => ProposeStays(w, t);
    case EInsert(t, action) => InsertStays(w, t, action);
    case ECompleteTurn(t) => CompletionStays(w, t);
    case ECrash(t) => CrashStays(w, t);
  }

  lemma ConfirmStartIsPlaced(w: World, t: TxId, owner: Owner, action: ActionId, granted: set<Permission>)
    requires Placed(w)
    ensures OnlyMoves(w.conversations, w.txs, t, ConfirmStart(w, t, owner, action, granted).txs)
  {
    if t in w.txs {
      assert IsPlaced(w.conversations, w.txs[t]);
    }
  }

  lemma CancelIsPlaced(w: World, t: TxId, owner: Owner, action: ActionId, at: int)
    requires Placed(w)
    ensures OnlyMoves(w.conversations, w.txs, t, Cancel(w, t, owner, action, at).txs)
  {
    if t in w.txs {
      assert IsPlaced(w.conversations, w.txs[t]);
    }
  }

  lemma TurnStartIsPlaced(w: World, t: TxId, owner: Owner, c: ConversationId, question: string,
                          requested: Option<Option<Continuation>>)
    requires t in w.txs ==> IsPlaced(w.conversations, w.txs[t])
    ensures OnlyMoves(w.conversations, w.txs, t, TurnStart(w, t, owner, c, question, requested).txs)
  {
  }

  lemma StatusReadIsPlaced(w: World, t: TxId, owner: Owner, s: ShipmentId, target: ShipmentStatus)
    requires t in w.txs ==> IsPlaced(w.conversations, w.txs[t])
    ensures OnlyMoves(w.conversations, w.txs, t, StatusRead(w, t, owner, s, target).txs)
  {
  }

  lemma StatusWriteIsPlaced(w: World, t: TxId)
    requires t in w.txs ==> IsPlaced(w.conversations, w.txs[t])
    ensures OnlyMoves(w.conversations, w.txs, t, StatusWriteBack(w, t).txs)
  {
  }

  predicate IsStart(e: Event) {
    e.EConfirmStart? || e.ECancel? || e.ETurnStart? || e.EStatusRead? || e.EStatusWrite?
  }

  /** A request that starts is placed: it acts on a row, or has yet to look for its conversation. */
  lemma StartIsPlaced(w: World, e: Event)
    requires Placed(w) && IsStart(e)
    ensures OnlyMoves(w.conversations, w.txs, e.t, Step(w, e).txs)
  {
    if e.t in w.txs {
      assert IsPlaced(w.conversations, w.txs[e.t]);
    }
    match e
    case EConfirmStart(t, owner, action, granted) => ConfirmStartIsPlaced(w, t, owner, action, granted);
    case ECancel(t, owner, action, at) => CancelIsPlaced(w, t, owner, action, at);
    case ETurnStart(t, owner, c, question, requested) => TurnStartIsPlaced(w, t, owner, c, question, requested);
    case EStatusRead(t, owner, shipment, target) => StatusReadIsPlaced(w, t, owner, shipment, target);
    case EStatusWrite(t) => StatusWriteIsPlaced(w, t);
  }

  lemma PrepareIsPlaced(w: World, t: TxId)
    requires Placed(w)
    ensures OnlyMoves(w.conversations, w.txs, t, Prepare(w, t).txs)
  {
    if t in w.txs {
      assert IsPlaced(w.conversations, w.txs[t]);
    }
  }

  lemma EditMovesNothing(w: World, e: Event)
    requires e.EUpdateShipment? || e.ECreateShipment? || e.ECreateConversation? || e.EDeleteConversation?
    ensures Step(w, e).txs == w.txs
  {
  }

  lemma StepKeepsTxsPlaced(w: World, e: Event)
    requires Placed(w) && OwnersKept(w.conversations, Step(w, e).conversations)
    ensures TxsPlaced(Step(w, e).conversations, Step(w, e).txs)
  {
    var v := Step(w, e);
    if e.EUpdateShipment? || e.ECreateShipment? || e.ECreateConversation? || e.EDeleteConversation? {
      EditMovesNothing(w, e);
      MovesKeepPlaced(w.conversations, w.txs, 0, v.conversations, v.txs);
    } else {
      RequestMoves(w, e);
      MovesKeepPlaced(w.conversations, w.txs, e.t, v.conversations, v.txs);
    }
  }

  lemma RequestMoves(w: World, e: Event)
    requires Placed(w)
    requires IsStart(e) || e.EPrepare? || IsConfirmationStep(e) || IsTurnStep(e)
    ensures OnlyMoves(w.conversations, w.txs, e.t, Step(w, e).txs)
  {
    if IsStart(e) {
      StartIsPlaced(w, e);
    } else if e.EPrepare? {
      PrepareIsPlaced(w, e.t);
    } else {
      if IsConfirmationStep(e) {
        ConfirmationStays(w, e);
      } else {
        TurnStays(w, e);
      }
      StayingIsPlaced(w, e.t, Step(w, e));
    }
  }

  lemma StepKeepsPlaced(w: World, e: Event)
    requires Safe(w) && Placed(w)
    ensures Placed(Step(w, e))
  {
    StepKeepsOwners(w, e);
    StepKeepsRowsPlaced(w, e);
    StepKeepsTxsPlaced(w, e);
    KeptRowsStayPlaced(Step(w, e).actions, w.conversations, Step(w, e).conversations);
  }

  lemma KeptRowsStayPlaced(rows: Rows, talks: Talks, talks': Talks)
    requires RowsPlaced(rows, talks) && OwnersKept(talks, talks')
    ensures RowsPlaced(rows, talks')
  {
  }
}
