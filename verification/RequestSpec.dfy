/** What one undisturbed request does to the stored tables, in one step. */
module RequestSpec {
  import opened Prelude
  import opened Authorization
  import opened Shipments
  import opened Actions
  import opened Conversations
  import opened Protocol

  datatype Tables = Tables(
    actions: map<ActionId, Action>,
    audit: map<ActionId, seq<AuditEvent>>,
    conversations: map<ConversationId, Conversation>
  )

  datatype ServiceError =
    | ActionNotFound
    | PermissionDenied
    | ActionInProgress
    | ActionConflict(status: ActionStatus)
    | ExecutionFailed(reason: FailureReason)
    | PendingActionExists
    | ConversationNotFound
    | ContinuationMismatch
    | AgentFailed

  datatype Mutation = Mutation(action: Action, changed: bool)

  function Trail(audit: map<ActionId, seq<AuditEvent>>, id: ActionId): seq<AuditEvent> {
    if id in audit then audit[id] else []
  }

  function Recorded(tables: Tables, id: ActionId, event: AuditEvent): Tables {
    tables.(audit := tables.audit[id := Trail(tables.audit, id) + [event]])
  }

  function Stored(tables: Tables, id: ActionId, row: Action): Tables {
    tables.(actions := tables.actions[id := row])
  }

  function Owned(tables: Tables, owner: Owner, id: ActionId): Option<Action> {
    if id in tables.actions && tables.actions[id].owner == owner then Some(tables.actions[id]) else None
  }

  // ---- confirm ----

  /** What keeps a claimed action from being executed; `refused` says whether the update's own checks object. */
  function ExecutionFailure(p: Proposal, seen: Option<Shipment>, refused: bool): Option<FailureReason> {
    if ExpectationFailure(p, seen).Some? then ExpectationFailure(p, seen)
    else match p.kind
      case TransitionStatus =>
        if CanTransition(seen.value.status, p.targetStatus.value) then None else Some(ShipmentRefused)
      case UpdateNotes => if refused then Some(ShipmentRefused) else None
  }

  function ExecutedShipment(p: Proposal, s: Shipment): Shipment {
    match p.kind
    case TransitionStatus => if p.targetStatus.Some? then s.(status := p.targetStatus.value) else s
    case UpdateNotes => s.(notes := WrittenNotes(p))
  }

  function Summary(p: Proposal, s: Shipment): ResultSummary {
    match p.kind
    case TransitionStatus =>
      StatusChanged(s.details.trackingNumber, s.status,
                    if p.targetStatus.Some? then p.targetStatus.value else s.status)
    case UpdateNotes => NotesReplaced(s.details.trackingNumber)
  }

  /** Why a confirmation is answered without claiming anything. */
  function ConfirmRefusal(current: Option<Action>, granted: set<Permission>): Option<Result<Mutation, ServiceError>> {
    if current.None? then Some(Err(ActionNotFound))
    else if !MayConfirm(current.value.proposal.kind, granted) then Some(Err(PermissionDenied))
    else match current.value.status
      case PendingConfirmation => None
      case Executed => Some(Ok(Mutation(current.value, false)))
      case Executing => Some(Err(ActionInProgress))
      case status => Some(Err(ActionConflict(status)))
  }

  datatype Confirmation = Confirmation(
    tables: Tables,
    shipments: map<ShipmentId, Shipment>,
    reply: Result<Mutation, ServiceError>
  )

  /** The row and trail are brought to their end in one go, and the shipment changes if and only if nothing objects. */
  function ExecutionOf(tables: Tables, shipments: map<ShipmentId, Shipment>, id: ActionId, a: Action, claimedAt: int,
                    markedAt: int, refused: bool): Confirmation
  {
    var p := a.proposal;
    var seen := Visible(shipments, p.shipment);
    match ExecutionFailure(p, seen, refused)
    case Some(reason) =>
      var row := MarkFailed(Claim(a, claimedAt), reason, markedAt);
      Confirmation(Recorded(Recorded(Stored(tables, id, row), id, WasConfirmed), id, WasFailed), shipments,
                   Err(ExecutionFailed(reason)))
    case None =>
      var row := MarkExecuted(Claim(a, claimedAt), Summary(p, seen.value), markedAt);
      Confirmation(Recorded(Recorded(Stored(tables, id, row), id, WasConfirmed), id, WasExecuted),
                   shipments[p.shipment := ExecutedShipment(p, seen.value)], Ok(Mutation(row, true)))
  }

  /** `contended`: another request claims or cancels the action between the read and the claim. */
  function ConfirmationOf(tables: Tables, shipments: map<ShipmentId, Shipment>, owner: Owner, id: ActionId,
                     granted: set<Permission>, claimedAt: int, markedAt: int, contended: bool, refused: bool)
    : Confirmation
  {
    var current := Owned(tables, owner, id);
    var refusal := ConfirmRefusal(current, granted);
    if refusal.Some? then Confirmation(tables, shipments, refusal.value)
    else if contended then Confirmation(tables, shipments, Err(ActionInProgress))
    else ExecutionOf(tables, shipments, id, current.value, claimedAt, markedAt, refused)
  }

  // ---- cancel ----

  datatype Cancellation = Cancellation(tables: Tables, reply: Result<Mutation, ServiceError>)

  function CancellationOf(tables: Tables, owner: Owner, id: ActionId, at: int): Cancellation {
    match Owned(tables, owner, id)
    case None => Cancellation(tables, Err(ActionNotFound))
    case Some(current) =>
      match current.status
      case PendingConfirmation =>
        var row := MarkCancelled(current, at);
        Cancellation(Recorded(Stored(tables, id, row), id, WasCancelled), Ok(Mutation(row, true)))
      case CancelledByUser => Cancellation(tables, Ok(Mutation(current, false)))
      case Executing => Cancellation(tables, Err(ActionInProgress))
      case status => Cancellation(tables, Err(ActionConflict(status)))
  }

  // ---- conversation turns ----

  /** The last `limit` messages. */
  function Recent(messages: seq<Message>, limit: nat): seq<Message> {
    if |messages| <= limit then messages else messages[|messages| - limit..]
  }

  lemma RecentIsTheEnd(messages: seq<Message>, limit: nat)
    ensures var recent := Recent(messages, limit);
            && |recent| == (if |messages| < limit then |messages| else limit)
            && exists older :: messages == older + recent
  {
    var n := |messages| - |Recent(messages, limit)|;
    assert messages == messages[..n] + Recent(messages, limit);
  }

  function Titled(conv: Conversation, question: string): Title {
    if conv.messages == [] && conv.title.DefaultTitle? then TitleOf(question) else conv.title
  }

  /** The conversation after a whole turn. */
  function AfterTurn(conv: Conversation, question: string, result: AgentResult): Conversation {
    conv.(title := Titled(conv, question),
          messages := conv.messages + [Message(User, Words(question)), Message(Assistant, result.answer)],
          continuation := StoreContinuation(result.continuation))
  }

  datatype Turn = Turn(tables: Tables, reply: Result<AgentResult, ServiceError>)

  /** `run` is the agent, given the continuation and the recent messages; None when it raises. `id` is the new row's. */
  function TurnOf(tables: Tables, owner: Owner, c: ConversationId, question: string,
                  requested: Option<Option<Continuation>>,
                  run: (Option<Continuation>, seq<Message>) -> Option<AgentResult>, id: ActionId): Turn
  {
    if HasActiveOf(tables.actions, owner, c) then Turn(tables, Err(PendingActionExists))
    else if !IsOpenTo(tables.conversations, c, owner) then Turn(tables, Err(ConversationNotFound))
    else
      var conv := tables.conversations[c];
      match ChooseContinuation(requested, BuildContinuation(conv.continuation))
      case None => Turn(tables, Err(ContinuationMismatch))
      case Some(continuation) =>
        match run(continuation, Recent(conv.messages, MAX_CONTEXT_MESSAGES))
        case None => Turn(tables, Err(AgentFailed))
        case Some(result) => AnsweredTurn(tables, owner, c, question, result, id)
  }

  function AnsweredTurn(tables: Tables, owner: Owner, c: ConversationId, question: string, result: AgentResult,
                    id: ActionId): Turn
    requires c in tables.conversations
  {
    var talked := Placed(tables, c, AfterTurn(tables.conversations[c], question, result));
    match result.proposal
    case None => Turn(talked, Ok(result))
    case Some(p) =>
      if id in tables.actions || HasActive(tables.actions, c) then Turn(tables, Err(PendingActionExists))
      else Turn(Recorded(Stored(talked, id, NewAction(owner, c, p)), id, WasProposed), Ok(result))
  }

  function Placed(tables: Tables, c: ConversationId, conv: Conversation): Tables {
    tables.(conversations := tables.conversations[c := conv])
  }

  /** The conversation after a message of the assistant that ends any clarification. */
  function Told(tables: Tables, owner: Owner, c: ConversationId, body: Body): Tables {
    if c !in tables.conversations then tables
    else
      var conv := tables.conversations[c];
      Placed(tables, c, conv.(messages := conv.messages + [Message(Assistant, body)],
                              continuation := if IsOpenTo(tables.conversations, c, owner) then StoreContinuation(None)
                              else conv.continuation))
  }
}
