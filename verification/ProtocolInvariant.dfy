/** The invariant of the protocol: what the committed tables and the open transactions satisfy. */
module ProtocolInvariant {
  import opened Prelude
  import opened Authorization
  import opened Shipments
  import opened Actions
  import opened Conversations
  import opened Protocol

  type Rows = map<ActionId, Action>

  /** A committed action is never `executing`; its columns are the ones its status demands. */
  predicate AtRest(row: Action) {
    !row.status.Executing? && FieldsMatchStatus(row)
  }

  ghost predicate RowsRest(rows: Rows) {
    forall a :: a in rows ==> AtRest(rows[a])
  }

  /** The committed audit trail of every action is the one its status determines. */
  ghost predicate TrailsMatch(rows: Rows, audit: map<ActionId, seq<AuditEvent>>) {
    audit.Keys == rows.Keys && forall a :: a in rows ==> audit[a] == TrailFor(rows[a].status)
  }

  /** Every stored proposal is well formed, belongs to a conversation, and was made with its permissions. */
  ghost predicate ProposalsBacked(rows: Rows, proposedWith: map<ActionId, set<Permission>>, known: set<ConversationId>)
  {
    && proposedWith.Keys == rows.Keys
    && forall a :: a in rows ==>
         && AsksForChange(rows[a].proposal)
         && MayConfirm(rows[a].proposal.kind, proposedWith[a])
         && rows[a].conversation in known
  }

  ghost predicate OneActive(rows: Rows) {
    forall a, b ::
      (a in rows && b in rows && IsActive(rows[a]) && IsActive(rows[b])
       && rows[a].conversation == rows[b].conversation) ==> a == b
  }

  /** The transaction updated a row that is committed as pending. */
  predicate Updates(rows: Rows, tx: Tx) {
    && tx.row.Some?
    && tx.action in rows
    && rows[tx.action].status.PendingConfirmation?
    && SameRequest(tx.row.value, rows[tx.action])
    && FieldsMatchStatus(tx.row.value)
    && tx.conversation == tx.row.value.conversation
  }

  predicate HoldsClaim(rows: Rows, tx: Tx) {
    && Updates(rows, tx)
    && tx.row.value.status.Executing?
    && tx.trail == [WasConfirmed]
    && MayConfirm(tx.row.value.proposal.kind, tx.granted)
  }

  predicate HoldsOutcome(rows: Rows, tx: Tx) {
    && Updates(rows, tx)
    && !IsActive(tx.row.value)
    && tx.trail == TrailFor(tx.row.value.status)[1..]
    && tx.pc.Committing?
    && (tx.pc.reply.Some? <==> !tx.row.value.status.Failed?)
  }

  predicate Unwritten(tx: Tx) {
    tx.row.None? && tx.trail == []
  }

  predicate Inserts(tx: Tx) {
    tx.pc.Completing? && tx.row.Some?
  }

  predicate HoldsInsert(rows: Rows, tx: Tx) {
    && Inserts(tx)
    && tx.pc.answer.proposal.Some?
    && tx.row.value == NewAction(tx.owner, tx.conversation, tx.pc.answer.proposal.value)
    && tx.action !in rows
    && tx.trail == [WasProposed]
  }

  predicate IsClaimHolder(tx: Tx) {
    tx.pc.ReadingShipment? || tx.pc.UseCaseReading? || tx.pc.UseCaseWriting? || tx.pc.MarkingExecuted?
  }

  /** A confirmation that has passed its checks but not yet claimed the row. */
  predicate MayClaim(rows: Rows, tx: Tx) {
    && tx.action in rows
    && tx.conversation == rows[tx.action].conversation
    && MayConfirm(rows[tx.action].proposal.kind, tx.granted)
  }

  /** A status about to be written was allowed from the status the use case has read. */
  predicate LoadedAllows(tx: Tx) {
    && ((tx.pc.UseCaseReading? || tx.pc.UseCaseWriting?)
        && tx.row.Some? && tx.row.value.proposal.kind.TransitionStatus? ==>
          && tx.row.value.proposal.targetStatus.Some?
          && (tx.pc.UseCaseWriting? ==>
                CanTransition(tx.pc.loaded.status, tx.row.value.proposal.targetStatus.value)))
    && (tx.pc.StatusLoaded? ==> CanTransition(tx.pc.found, tx.pc.target))
  }

  /** Which uncommitted row a transaction may hold at its program counter. */
  predicate TxOk(rows: Rows, tx: Tx) {
    && LoadedAllows(tx)
    && if IsClaimHolder(tx) then HoldsClaim(rows, tx)
    else if tx.pc.Committing? then HoldsOutcome(rows, tx)
    else if Inserts(tx) then HoldsInsert(rows, tx)
    else Unwritten(tx) && (tx.pc.Claiming? ==> MayClaim(rows, tx))
  }

  ghost predicate TxsOk(rows: Rows, txs: map<TxId, Tx>) {
    forall t :: t in txs ==> TxOk(rows, txs[t])
  }

  /** A turn that holds an answer has stored its question and holds a result the agent may produce. */
  predicate TurnOk(known: set<ConversationId>, tx: Tx) {
    && (tx.pc.Running? || HasAnswer(tx) ==>
          tx.conversation in known && |tx.messages| == 1 && tx.messages[0].role == User)
    && (HasAnswer(tx) ==> Backed(tx.pc.answer, tx.granted))
    && (tx.pc.Proposing? || tx.pc.Inserting? ==> tx.pc.answer.proposal.Some?)
    && (tx.pc.Completing? && tx.pc.answer.proposal.Some? ==> tx.row.Some?)
  }

  predicate HasAnswer(tx: Tx) {
    tx.pc.Proposing? || tx.pc.Inserting? || tx.pc.Completing?
  }

  ghost predicate TurnsOk(known: set<ConversationId>, txs: map<TxId, Tx>) {
    forall t :: t in txs ==> TurnOk(known, txs[t])
  }

  /** Two transactions with uncommitted rows touch different rows of different conversations. */
  predicate Apart(a: Tx, b: Tx) {
    a.row.Some? && b.row.Some? ==> a.action != b.action && a.row.value.conversation != b.row.value.conversation
  }

  ghost predicate LocksExclusive(txs: map<TxId, Tx>) {
    forall t, u :: t in txs && u in txs && t != u ==> Apart(txs[t], txs[u])
  }

  ghost predicate InsertsFree(rows: Rows, txs: map<TxId, Tx>) {
    forall t :: t in txs && Inserts(txs[t]) ==> !HasActive(rows, txs[t].row.value.conversation)
  }

  ghost predicate TablesOk(w: World) {
    && RowsRest(w.actions)
    && TrailsMatch(w.actions, w.audit)
    && ProposalsBacked(w.actions, w.proposedWith, w.conversations.Keys)
    && OneActive(w.actions)
  }

  ghost predicate TransactionsOk(w: World) {
    && TxsOk(w.actions, w.txs)
    && TurnsOk(w.conversations.Keys, w.txs)
    && LocksExclusive(w.txs)
    && InsertsFree(w.actions, w.txs)
  }

  ghost predicate Safe(w: World) {
    TablesOk(w) && TransactionsOk(w)
  }

  /** `tx` may stand in for transaction `t`: it is in order, and apart from all others. */
  ghost predicate Fits(w: World, t: TxId, tx: Tx) {
    && TxOk(w.actions, tx)
    && TurnOk(w.conversations.Keys, tx)
    && (forall u :: u in w.txs && u != t ==> Apart(tx, w.txs[u]))
    && (Inserts(tx) ==> !HasActive(w.actions, tx.row.value.conversation))
  }

  ghost predicate Known(w: World, t: TxId) {
    t in w.txs ==> Fits(w, t, w.txs[t])
  }

  /** A step that leaves the action tables alone and ends, replaces or leaves transaction `t`. */
  ghost predicate TxStep(w: World, t: TxId, v: World) {
    && v.actions == w.actions && v.audit == w.audit && v.proposedWith == w.proposedWith
    && v.conversations.Keys >= w.conversations.Keys
    && (|| v.txs == w.txs
        || v.txs == w.txs - {t}
        || (t in v.txs && v.txs == w.txs[t := v.txs[t]] && Fits(w, t, v.txs[t])))
  }

  /** The action whose expected state this transaction has just checked, if any. */
  function AttemptOf(txs: map<TxId, Tx>, t: TxId): Option<ActionId> {
    if t in txs && (txs[t].pc.UseCaseReading? || txs[t].pc.UseCaseWriting?) then Some(txs[t].action) else None
  }

  /** The action whose effect is committed while this transaction's row is not, if any. */
  function PendingOf(txs: map<TxId, Tx>, t: TxId): Option<ActionId> {
    if t in txs && EffectPending(txs[t]) then Some(txs[t].action) else None
  }

  /** A step of transaction `t` that writes no shipment or conversation, starts no attempt and settles no effect. */
  ghost predicate QuietStep(w: World, t: TxId, v: World) {
    && TxStep(w, t, v)
    && v.conversations == w.conversations && v.writes == w.writes && v.orphans == w.orphans
    && (forall s :: s in w.shipments ==> s in v.shipments && v.shipments[s] == w.shipments[s])
    && (AttemptOf(v.txs, t) == None || AttemptOf(v.txs, t) == AttemptOf(w.txs, t))
    && PendingOf(v.txs, t) == PendingOf(w.txs, t)
  }
}
