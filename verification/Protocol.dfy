/**
 The confirm-before-execute protocol as a step system. A world is the committed database, the
 transactions in flight with what each has written but not committed, and the history of shipment
 writes. Every database statement, and every commit, is one step; steps of different
 requests interleave freely, and a request can crash between any two of its steps.
 */
module Protocol {
  import opened Prelude
  import opened Authorization
  import opened Shipments
  import opened Actions
  import opened Conversations
  import Text

  type TxId = nat

  /** What one run of the agent hands back to the request that started it. */
  datatype AgentResult = AgentResult(answer: Body, continuation: Option<Continuation>, proposal: Option<Proposal>)

  /** Where a request stands, with the values its local variables hold there. */
  datatype Pc =
    // confirm
    | Claiming
    | ReadingShipment
    | UseCaseReading(seen: Shipment)
    | UseCaseWriting(seen: Shipment, loaded: Shipment)
    | MarkingExecuted(result: ResultSummary)
    // confirm and cancel
    | Committing(reply: Option<Body>)
    | Notifying(body: Body)
    // run_agent
    | Preparing(question: string, requested: Option<Option<Continuation>>)
    | Running(question: string, continuation: Option<Continuation>)
    | Proposing(answer: AgentResult)
    | Inserting(answer: AgentResult)
    | Completing(answer: AgentResult)
    // another request's status transition, between its read and its write
    | StatusLoaded(shipment: ShipmentId, found: ShipmentStatus, target: ShipmentStatus)

  /**
   A transaction in flight. `row` is the action row it has updated or inserted, and with it
   the row lock it holds; `trail`, `messages` and `title` are its other uncommitted writes.
   */
  datatype Tx = Tx(
    pc: Pc,
    owner: Owner,
    action: ActionId,
    conversation: ConversationId,
    granted: set<Permission>,
    row: Option<Action>,
    trail: seq<AuditEvent>,
    messages: seq<Message>,
    title: Option<Title>
  )

  /** One committed write to a shipment; `agent` is the action it executes, if any. */
  datatype Write =
    | StatusWrite(shipment: ShipmentId, agent: Option<ActionId>, granted: set<Permission>,
                  seen: ShipmentStatus, before: ShipmentStatus, after: ShipmentStatus)
    | NotesWrite(shipment: ShipmentId, agent: Option<ActionId>, granted: set<Permission>,
                 notesBefore: Option<string>, notesAfter: Option<string>)

  /** `writes`, `orphans` and `proposedWith` are history: no step reads them. */
  datatype World = World(
    actions: map<ActionId, Action>,
    audit: map<ActionId, seq<AuditEvent>>,
    conversations: map<ConversationId, Conversation>,
    shipments: map<ShipmentId, Shipment>,
    txs: map<TxId, Tx>,
    writes: seq<Write>,
    orphans: multiset<ActionId>,
    proposedWith: map<ActionId, set<Permission>>
  )

  datatype Event =
    | EConfirmStart(t: TxId, owner: Owner, action: ActionId, granted: set<Permission>)
    | EClaim(t: TxId, at: int)
    | EReadShipment(t: TxId, at: int)
    | EUseCaseRead(t: TxId, at: int)
    | EUseCaseRefuse(t: TxId, at: int)
    | EUseCaseWrite(t: TxId)
    | EMarkExecuted(t: TxId, at: int)
    | ECommitOutcome(t: TxId)
    | ENotify(t: TxId)
    | ECancel(t: TxId, owner: Owner, action: ActionId, at: int)
    | ETurnStart(t: TxId, owner: Owner, conversation: ConversationId, question: string,
                 requested: Option<Option<Continuation>>)
    | EPrepare(t: TxId)
    | ERunAgent(t: TxId, granted: set<Permission>, answer: AgentResult)
    | EPropose(t: TxId)
    | EInsert(t: TxId, action: ActionId)
    | ECompleteTurn(t: TxId)
    | ECrash(t: TxId)
    | EStatusRead(t: TxId, owner: Owner, shipment: ShipmentId, target: ShipmentStatus)
    | EStatusWrite(t: TxId)
    | EUpdateShipment(shipment: ShipmentId, notes: Option<string>, details: Details)
    | ECreateShipment(shipment: ShipmentId, created: Shipment)
    | ECreateConversation(conversation: ConversationId, owner: Owner)
    | EDeleteConversation(conversation: ConversationId)

  // ---- permissions, locks and the result of an agent run ----

  /** The permissions a confirmation checks, by the kind of the stored action. */
  function ConfirmationPermissions(kind: ActionKind): set<Permission> {
    match kind
    case TransitionStatus => {ShipmentRead, ShipmentTransition}
    case UpdateNotes => {ShipmentRead, ShipmentUpdate}
  }

  predicate MayConfirm(kind: ActionKind, granted: set<Permission>) {
    ConfirmationPermissions(kind) <= granted
  }

  /** The notes an execution leaves on the shipment: the use case strips what it is given. */
  function WrittenNotes(p: Proposal): Option<string> {
    if p.newNotes.None? then None else Some(Text.Strip(p.newNotes.value))
  }

  /**
   The proposal asks for a real change: by a legal step of the lifecycle from the status it expects, or to other notes,
   which have nothing to strip.
   */
  predicate AsksForChange(p: Proposal) {
    match p.kind
    case TransitionStatus => p.targetStatus.Some? && CanTransition(p.expectedStatus, p.targetStatus.value)
    case UpdateNotes =>
      && p.newNotes.Some? && p.newNotes != p.expectedNotes
      && Text.Strip(p.newNotes.value) == p.newNotes.value
  }

  /** What the agent graph guarantees about a result (module AgentGraph proves it of every run). */
  predicate Backed(r: AgentResult, granted: set<Permission>) {
    && (r.continuation.Some? ==> IsContinuationRoute(r.continuation.value.route))
    && (r.proposal.Some? ==>
          && AsksForChange(r.proposal.value)
          && MayConfirm(r.proposal.value.kind, granted)
          && r.answer == ConfirmationRequest(r.proposal.value.summary)
          && r.continuation.None?)
  }

  /** Another transaction holds the lock of this action row. */
  ghost predicate RowLocked(txs: map<TxId, Tx>, t: TxId, a: ActionId) {
    exists u :: u in txs && u != t && txs[u].row.Some? && txs[u].action == a
  }

  /** Another transaction has an uncommitted row of this conversation, so its unique index entry is undecided. */
  ghost predicate SlotLocked(txs: map<TxId, Tx>, t: TxId, c: ConversationId) {
    exists u :: u in txs && u != t && txs[u].row.Some? && txs[u].row.value.conversation == c
  }

  predicate HasActive(actions: map<ActionId, Action>, c: ConversationId) {
    exists a :: a in actions && actions[a].conversation == c && IsActive(actions[a])
  }

  predicate HasActiveOf(actions: map<ActionId, Action>, owner: Owner, c: ConversationId) {
    exists a :: a in actions && actions[a].owner == owner && actions[a].conversation == c && IsActive(actions[a])
  }

  predicate At(w: World, t: TxId, pc: Pc) {
    t in w.txs && w.txs[t].pc == pc
  }

  function NewTx(pc: Pc, owner: Owner, action: ActionId, conversation: ConversationId): Tx {
    Tx(pc, owner, action, conversation, {}, None, [], [], None)
  }

  // ---- how a step changes the world ----

  function SetTx(w: World, t: TxId, tx: Tx): World {
    w.(txs := w.txs[t := tx])
  }

  function DropTx(w: World, t: TxId): World {
    w.(txs := w.txs - {t})
  }

  /** Commits the action row and its audit events. */
  function CommitRow(w: World, tx: Tx): World {
    if tx.row.None? then w
    else
      w.(actions := w.actions[tx.action := tx.row.value],
         audit := w.audit[tx.action := (if tx.action in w.audit then w.audit[tx.action] else []) + tx.trail])
  }

  /** Commits messages, title and continuation; a deleted conversation keeps its continuation. */
  function CommitTurn(w: World, c: ConversationId, title: Option<Title>, messages: seq<Message>,
                      continuation: Option<Continuation>): World
  {
    if c !in w.conversations then w
    else
      var conv := w.conversations[c];
      w.(conversations := w.conversations[c := conv.(
                                                 title := if title.Some? then title.value else conv.title,
                                                 messages := conv.messages + messages,
                                                 continuation := if conv.deleted then conv.continuation
                                                 else StoreContinuation(continuation))])
  }

  // ---- confirm ----

  /** Reads the row and checks permissions and status; every refusal ends the request. */
  function ConfirmStart(w: World, t: TxId, owner: Owner, action: ActionId, granted: set<Permission>): World {
    if t in w.txs then w
    else if action !in w.actions || w.actions[action].owner != owner then w
    else if !MayConfirm(w.actions[action].proposal.kind, granted) then w
    else if !w.actions[action].status.PendingConfirmation? then w
    else SetTx(w, t, NewTx(Claiming, owner, action, w.actions[action].conversation).(granted := granted))
  }

  /** The claim's UPDATE waits for the row lock, then tests its WHERE clause against the committed row. */
  ghost function ClaimRow(w: World, t: TxId, at: int): World {
    if !At(w, t, Claiming) || RowLocked(w.txs, t, w.txs[t].action) then w
    else
      var tx := w.txs[t];
      if tx.action in w.actions && w.actions[tx.action].owner == tx.owner
         && w.actions[tx.action].status.PendingConfirmation?
      then SetTx(w, t, ClaimedTx(tx, w.actions[tx.action], at))
      else DropTx(w, t)
  }

  function ClaimedTx(tx: Tx, a: Action, at: int): Tx {
    tx.(pc := ReadingShipment, row := Some(Claim(a, at)), trail := tx.trail + [WasConfirmed])
  }

  /** `_fail_action` up to its commit: the guarded update, then the audit record. */
  function FailRow(w: World, t: TxId, reason: FailureReason, at: int): World
    requires t in w.txs
  {
    var tx := w.txs[t];
    if tx.row.None? || !tx.row.value.status.Executing? then DropTx(w, t)
    else SetTx(w, t, tx.(pc := Committing(None), row := Some(MarkFailed(tx.row.value, reason, at)),
                         trail := tx.trail + [WasFailed]))
  }

  function Visible(shipments: map<ShipmentId, Shipment>, s: ShipmentId): Option<Shipment> {
    if s in shipments then Some(shipments[s]) else None
  }

  /** The service's own read of the shipment, and its check against the proposal. */
  function ReadShipment(w: World, t: TxId, at: int): World {
    if !At(w, t, ReadingShipment) || w.txs[t].row.None? then w
    else
      var p := w.txs[t].row.value.proposal;
      var seen := Visible(w.shipments, p.shipment);
      match ExpectationFailure(p, seen)
      case Some(reason) => FailRow(w, t, reason, at)
      case None => SetTx(w, t, w.txs[t].(pc := UseCaseReading(seen.value)))
  }

  /** The use case reads the shipment again, in its own transaction, and checks the lifecycle. */
  function UseCaseRead(w: World, t: TxId, at: int): World {
    if t !in w.txs || !w.txs[t].pc.UseCaseReading? || w.txs[t].row.None? then w
    else
      var p := w.txs[t].row.value.proposal;
      var loaded := Visible(w.shipments, p.shipment);
      if loaded.None? then FailRow(w, t, ShipmentRefused, at)
      else if p.kind.TransitionStatus? && p.targetStatus.Some?
              && !CanTransition(loaded.value.status, p.targetStatus.value)
      then FailRow(w, t, ShipmentRefused, at)
      else SetTx(w, t, w.txs[t].(pc := UseCaseWriting(w.txs[t].pc.seen, loaded.value)))
  }

  /** A notes update refused by its other checks (tracking number, customer, locations). */
  function UseCaseRefuse(w: World, t: TxId, at: int): World {
    if t !in w.txs || !w.txs[t].pc.UseCaseReading? || w.txs[t].row.None?
       || !w.txs[t].row.value.proposal.kind.UpdateNotes?
    then w
    else FailRow(w, t, ShipmentRefused, at)
  }

  /** A shipment write, as it changes the row; a notes update also writes the other columns. */
  function Written(current: Shipment, x: Write, details: Details): Shipment {
    match x
    case StatusWrite(_, _, _, _, _, after) => current.(status := after)
    case NotesWrite(_, _, _, _, notesAfter) => current.(notes := notesAfter, details := details)
  }

  /** The write the use case makes for a claimed action, given what it and the service have read. */
  function AgentWrite(tx: Tx, current: Shipment): Write
    requires tx.pc.UseCaseWriting? && tx.row.Some?
  {
    var p := tx.row.value.proposal;
    match p.kind
    case TransitionStatus =>
      StatusWrite(p.shipment, Some(tx.action), tx.granted, tx.pc.loaded.status, current.status,
                  if p.targetStatus.Some? then p.targetStatus.value else tx.pc.loaded.status)
    case UpdateNotes => NotesWrite(p.shipment, Some(tx.action), tx.granted, current.notes, WrittenNotes(p))
  }

  function AgentSummary(tx: Tx, current: Shipment): ResultSummary
    requires tx.pc.UseCaseWriting? && tx.row.Some?
  {
    var p := tx.row.value.proposal;
    match p.kind
    case TransitionStatus =>
      StatusChanged(current.details.trackingNumber, tx.pc.seen.status,
                    if p.targetStatus.Some? then p.targetStatus.value else tx.pc.seen.status)
    case UpdateNotes => NotesReplaced(tx.pc.seen.details.trackingNumber)
  }

  /** The use case writes and commits the shipment; the claim is still uncommitted. */
  function UseCaseWrite(w: World, t: TxId): World {
    if t !in w.txs || !w.txs[t].pc.UseCaseWriting? || w.txs[t].row.None?
       || w.txs[t].row.value.proposal.shipment !in w.shipments
    then w
    else
      var tx := w.txs[t];
      var s := tx.row.value.proposal.shipment;
      var x := AgentWrite(tx, w.shipments[s]);
      w.(shipments := w.shipments[s := Written(w.shipments[s], x, tx.pc.seen.details)],
         writes := w.writes + [x],
         txs := w.txs[t := tx.(pc := MarkingExecuted(AgentSummary(tx, w.shipments[s])))])
  }

  /** The guarded update to `executed`; a missed guard is the source's RuntimeError, which ends the request. */
  function MarkRowExecuted(w: World, t: TxId, at: int): World {
    if t !in w.txs || !w.txs[t].pc.MarkingExecuted? then w
    else
      var tx := w.txs[t];
      if tx.row.None? || !tx.row.value.status.Executing? then CrashTx(w, t)
      else SetTx(w, t, tx.(pc := Committing(Some(ActionResult(tx.pc.result))),
                           row := Some(MarkExecuted(tx.row.value, tx.pc.result, at)),
                           trail := tx.trail + [WasExecuted]))
  }

  /** Commits the outcome; a changed action is then answered in a second transaction. */
  function CommitOutcome(w: World, t: TxId): World {
    if t !in w.txs || !w.txs[t].pc.Committing? then w
    else
      var tx := w.txs[t];
      var committed := DropTx(CommitRow(w, tx), t);
      match tx.pc.reply
      case None => committed
      case Some(body) => SetTx(committed, t, NewTx(Notifying(body), tx.owner, tx.action, tx.conversation))
  }

  /** `complete_turn` after a confirmation or a cancellation. */
  function Notify(w: World, t: TxId): World {
    if t !in w.txs || !w.txs[t].pc.Notifying? then w
    else
      DropTx(CommitTurn(w, w.txs[t].conversation, None, [Message(Assistant, w.txs[t].pc.body)], None), t)
  }

  // ---- cancel ----

  function CancelTx(owner: Owner, action: ActionId, a: Action, at: int): Tx {
    Tx(Committing(Some(ActionCancelled(a.proposal.summary))), owner, action, a.conversation, {},
       Some(MarkCancelled(a, at)), [WasCancelled], [], None)
  }

  /** The cancellation's UPDATE is the first statement of its request; if it matches nothing, nothing changes. */
  ghost function Cancel(w: World, t: TxId, owner: Owner, action: ActionId, at: int): World {
    if t in w.txs || RowLocked(w.txs, t, action) then w
    else if action in w.actions && w.actions[action].owner == owner
            && w.actions[action].status.PendingConfirmation?
    then SetTx(w, t, CancelTx(owner, action, w.actions[action], at))
    else w
  }

  // ---- run_agent on a stored conversation ----

  ghost function TurnStart(w: World, t: TxId, owner: Owner, c: ConversationId, question: string,
                           requested: Option<Option<Continuation>>): World
  {
    if t in w.txs || HasActiveOf(w.actions, owner, c) then w
    else SetTx(w, t, NewTx(Preparing(question, requested), owner, 0, c))
  }

  /** The continuation a turn runs with, or None when the requested one is not the stored one. */
  function ChooseContinuation(requested: Option<Option<Continuation>>, stored: Option<Continuation>)
    : Option<Option<Continuation>>
  {
    match requested
    case None => Some(stored)
    case Some(None) => Some(None)
    case Some(c) => if c == stored then Some(c) else None
  }

  /** Whether the conversation is the caller's and not deleted. */
  predicate IsOpenTo(conversations: map<ConversationId, Conversation>, c: ConversationId, owner: Owner) {
    c in conversations && conversations[c].owner == owner && !conversations[c].deleted
  }

  /** `prepare_turn`: the question, and for the first question of an untitled conversation a title. */
  function PreparedTx(tx: Tx, conv: Conversation, question: string, continuation: Option<Continuation>): Tx {
    tx.(pc := Running(question, continuation),
        title := if conv.messages == [] && conv.title.DefaultTitle? then Some(TitleOf(question)) else None,
        messages := [Message(User, Words(question))])
  }

  function Prepare(w: World, t: TxId): World {
    if t !in w.txs || !w.txs[t].pc.Preparing? then w
    else if !IsOpenTo(w.conversations, w.txs[t].conversation, w.txs[t].owner) then DropTx(w, t)
    else
      var tx, conv := w.txs[t], w.conversations[w.txs[t].conversation];
      match ChooseContinuation(tx.pc.requested, BuildContinuation(conv.continuation))
      case None => DropTx(w, t)
      case Some(continuation) => SetTx(w, t, PreparedTx(tx, conv, tx.pc.question, continuation))
  }

  function RunAgent(w: World, t: TxId, granted: set<Permission>, answer: AgentResult): World {
    if t !in w.txs || !w.txs[t].pc.Running? || !Backed(answer, granted) then w
    else if answer.proposal.None? then SetTx(w, t, w.txs[t].(pc := Completing(answer), granted := granted))
    else SetTx(w, t, w.txs[t].(pc := Proposing(answer), granted := granted))
  }

  /** `propose` looks for an active action of the conversation first ... */
  ghost function Propose(w: World, t: TxId): World {
    if t !in w.txs || !w.txs[t].pc.Proposing? then w
    else if HasActiveOf(w.actions, w.txs[t].owner, w.txs[t].conversation) then DropTx(w, t)
    else SetTx(w, t, w.txs[t].(pc := Inserting(w.txs[t].pc.answer)))
  }

  /**
   ... and then inserts. The partial unique index makes the INSERT wait while another
   transaction's row of the conversation is undecided, and refuses it if a committed row is active.
   */
  ghost function Insert(w: World, t: TxId, action: ActionId): World {
    if t !in w.txs || !w.txs[t].pc.Inserting? || w.txs[t].pc.answer.proposal.None? then w
    else if action in w.actions || RowLocked(w.txs, t, action) then w
    else if SlotLocked(w.txs, t, w.txs[t].conversation) then w
    else if HasActive(w.actions, w.txs[t].conversation) then DropTx(w, t)
    else SetTx(w, t, InsertTx(w.txs[t], action))
  }

  function InsertTx(tx: Tx, action: ActionId): Tx
    requires tx.pc.Inserting? && tx.pc.answer.proposal.Some?
  {
    tx.(pc := Completing(tx.pc.answer), action := action,
        row := Some(NewAction(tx.owner, tx.conversation, tx.pc.answer.proposal.value)), trail := [WasProposed])
  }

  /** `complete_turn`: one commit for question, title, action, audit, answer and continuation. */
  function CompleteTurn(w: World, t: TxId): World {
    if t !in w.txs || !w.txs[t].pc.Completing? then w
    else
      var tx := w.txs[t];
      var answer := tx.pc.answer;
      var rows := CommitRow(w, tx);
      var known := if tx.row.Some?
                   then rows.(proposedWith := rows.proposedWith[tx.action := tx.granted]) else rows;
      DropTx(CommitTurn(known, tx.conversation, tx.title,
                        tx.messages + [Message(Assistant, answer.answer)], answer.continuation), t)
  }

  // ---- crashes and the other writers ----

  /** The request dies or raises: its open transaction is rolled back. */
  function CrashTx(w: World, t: TxId): World {
    if t !in w.txs then w
    else
      var orphaned := if EffectPending(w.txs[t]) then multiset{w.txs[t].action} else multiset{};
      DropTx(w, t).(orphans := w.orphans + orphaned)
  }

  /** The shipment has been changed for this action, but the action row is not committed yet. */
  predicate EffectPending(tx: Tx) {
    || tx.pc.MarkingExecuted?
    || (tx.pc.Committing? && tx.row.Some? && tx.row.value.status.Executed?)
  }

  function StatusRead(w: World, t: TxId, owner: Owner, s: ShipmentId, target: ShipmentStatus): World {
    if t in w.txs || s !in w.shipments || !CanTransition(w.shipments[s].status, target) then w
    else SetTx(w, t, NewTx(StatusLoaded(s, w.shipments[s].status, target), owner, 0, 0))
  }

  function StatusWriteBack(w: World, t: TxId): World {
    if t !in w.txs || !w.txs[t].pc.StatusLoaded? || w.txs[t].pc.shipment !in w.shipments then w
    else
      var pc := w.txs[t].pc;
      var current := w.shipments[pc.shipment];
      var x := StatusWrite(pc.shipment, None, w.txs[t].granted, pc.found, current.status, pc.target);
      DropTx(w, t).(
        shipments := w.shipments[pc.shipment := Written(current, x, current.details)],
        writes := w.writes + [x])
  }

  function UpdateShipmentRow(w: World, s: ShipmentId, notes: Option<string>, details: Details): World {
    if s !in w.shipments then w
    else
      var x := NotesWrite(s, None, {}, w.shipments[s].notes, notes);
      w.(shipments := w.shipments[s := Written(w.shipments[s], x, details)], writes := w.writes + [x])
  }

  function CreateShipment(w: World, s: ShipmentId, created: Shipment): World {
    if s in w.shipments then w else w.(shipments := w.shipments[s := created.(status := Draft)])
  }

  function CreateConversation(w: World, c: ConversationId, owner: Owner): World {
    if c in w.conversations then w
    else
      w.(conversations := w.conversations[c := Conversation(owner, DefaultTitle, false, NO_CONTINUATION, [])])
  }

  function DeleteConversation(w: World, c: ConversationId): World {
    if c !in w.conversations then w
    else w.(conversations := w.conversations[c := w.conversations[c].(deleted := true)])
  }

  // ---- runs ----

  /** One step; an event that is not enabled leaves the world as it is. */
  ghost function Step(w: World, e: Event): World {
    match e
    case EConfirmStart(t, owner, action, granted) => ConfirmStart(w, t, owner, action, granted)
    case EClaim(t, at) => ClaimRow(w, t, at)
    case EReadShipment(t, at) => ReadShipment(w, t, at)
    case EUseCaseRead(t, at) => UseCaseRead(w, t, at)
    case EUseCaseRefuse(t, at) => UseCaseRefuse(w, t, at)
    case EUseCaseWrite(t) => UseCaseWrite(w, t)
    case EMarkExecuted(t, at) => MarkRowExecuted(w, t, at)
    case ECommitOutcome(t) => CommitOutcome(w, t)
    case ENotify(t) => Notify(w, t)
    case ECancel(t, owner, action, at) => Cancel(w, t, owner, action, at)
    case ETurnStart(t, owner, c, question, requested) => TurnStart(w, t, owner, c, question, requested)
    case EPrepare(t) => Prepare(w, t)
    case ERunAgent(t, granted, answer) => RunAgent(w, t, granted, answer)
    case EPropose(t) => Propose(w, t)
    case EInsert(t, action) => Insert(w, t, action)
    case ECompleteTurn(t) => CompleteTurn(w, t)
    case ECrash(t) => CrashTx(w, t)
    case EStatusRead(t, owner, s, target) => StatusRead(w, t, owner, s, target)
    case EStatusWrite(t) => StatusWriteBack(w, t)
    case EUpdateShipment(s, notes, details) => UpdateShipmentRow(w, s, notes, details)
    case ECreateShipment(s, created) => CreateShipment(w, s, created)
    case ECreateConversation(c, owner) => CreateConversation(w, c, owner)
    case EDeleteConversation(c) => DeleteConversation(w, c)
  }

  ghost function Run(w: World, events: seq<Event>): World {
    if events == [] then w else Step(Run(w, events[..|events| - 1]), events[|events| - 1])
  }

  /** Any shipments to begin with; no conversation, action, request or history yet. */
  predicate Initial(w: World) {
    && w.actions == map[] && w.audit == map[] && w.conversations == map[] && w.txs == map[]
    && w.writes == [] && w.orphans == multiset{} && w.proposedWith == map[]
  }

  ghost predicate Reachable(w: World) {
    exists w0, events :: Initial(w0) && w == Run(w0, events)
  }

  lemma ReachableStep(w: World, e: Event)
    requires Reachable(w)
    ensures Reachable(Step(w, e))
  {
    var w0, events :| Initial(w0) && w == Run(w0, events);
    var more := events + [e];
    assert more[..|more| - 1] == events;
    assert Step(w, e) == Run(w0, more);
  }

  /** What is reached from a reachable state is reachable. */
  lemma {:induction false} ReachableRun(w: World, events: seq<Event>)
    requires Reachable(w)
    ensures Reachable(Run(w, events))
  {
    if events != [] {
      ReachableRun(w, events[..|events| - 1]);
      ReachableStep(Run(w, events[..|events| - 1]), events[|events| - 1]);
    }
  }
}
