/** The persisted AI action: its row, and the guarded updates the repository applies to it. */
module Actions {
  import opened Prelude
  import opened Shipments

  type ActionId = nat
  type ConversationId = nat

  datatype Owner = Owner(tenant: nat, user: nat)

  datatype ActionStatus = PendingConfirmation | Executing | Executed | CancelledByUser | Failed

  datatype ResultSummary =
    | StatusChanged(trackingNumber: string, from: ShipmentStatus, to: ShipmentStatus)
    | NotesReplaced(trackingNumber: string)

  datatype FailureReason = StatusMoved | TargetMissing | NotesMoved | NewNotesMissing | ShipmentRefused

  datatype AuditEvent = WasProposed | WasConfirmed | WasExecuted | WasFailed | WasCancelled

  datatype Action = Action(
    owner: Owner,
    conversation: ConversationId,
    proposal: Proposal,
    status: ActionStatus,
    result: Option<ResultSummary>,
    failure: Option<FailureReason>,
    confirmedAt: Option<int>,
    executedAt: Option<int>,
    cancelledAt: Option<int>,
    failedAt: Option<int>
  )

  predicate IsActive(a: Action) {
    a.status.PendingConfirmation? || a.status.Executing?
  }

  function NewAction(owner: Owner, conversation: ConversationId, proposal: Proposal): Action {
    Action(owner, conversation, proposal, PendingConfirmation, None, None, None, None, None, None)
  }

  // The four guarded updates, as the SET clause of each; the WHERE clause is checked by the caller.

  function Claim(a: Action, at: int): Action {
    a.(status := Executing, confirmedAt := Some(at))
  }

  function MarkExecuted(a: Action, result: ResultSummary, at: int): Action {
    a.(status := Executed, result := Some(result), executedAt := Some(at))
  }

  function MarkFailed(a: Action, reason: FailureReason, at: int): Action {
    a.(status := Failed, failure := Some(reason), failedAt := Some(at))
  }

  function MarkCancelled(a: Action, at: int): Action {
    a.(status := CancelledByUser, cancelledAt := Some(at))
  }

  /** The audit events an action has gone through when it rests in `status`. */
  function TrailFor(status: ActionStatus): seq<AuditEvent> {
    match status
    case PendingConfirmation => [WasProposed]
    case Executing => [WasProposed, WasConfirmed]
    case Executed => [WasProposed, WasConfirmed, WasExecuted]
    case Failed => [WasProposed, WasConfirmed, WasFailed]
    case CancelledByUser => [WasProposed, WasCancelled]
  }

  /** Exactly the columns the status demands are set. */
  predicate FieldsMatchStatus(a: Action) {
    && (a.confirmedAt.Some? <==> a.status.Executing? || a.status.Executed? || a.status.Failed?)
    && (a.executedAt.Some? <==> a.status.Executed?)
    && (a.result.Some? <==> a.status.Executed?)
    && (a.failedAt.Some? <==> a.status.Failed?)
    && (a.failure.Some? <==> a.status.Failed?)
    && (a.cancelledAt.Some? <==> a.status.CancelledByUser?)
  }

  /** What no update ever touches. */
  predicate SameRequest(a: Action, b: Action) {
    a.owner == b.owner && a.conversation == b.conversation && a.proposal == b.proposal
  }

  /** The service's check of the shipment against the stored proposal (None: safe to execute). */
  function ExpectationFailure(p: Proposal, seen: Option<Shipment>): Option<FailureReason> {
    if seen.None? then Some(ShipmentRefused)
    else match p.kind
      case TransitionStatus =>
        if seen.value.status != p.expectedStatus then Some(StatusMoved)
        else if p.targetStatus.None? then Some(TargetMissing)
        else None
      case UpdateNotes =>
        if seen.value.notes != p.expectedNotes then Some(NotesMoved)
        else if p.newNotes.None? then Some(NewNotesMissing)
        else None
  }

  /** Which reason the check gives: each exactly in its own case. */
  lemma ReasonsAreExact(p: Proposal, seen: Option<Shipment>)
    ensures var found := ExpectationFailure(p, seen);
            && (found == Some(ShipmentRefused) <==> seen.None?)
            && (found == Some(StatusMoved) <==>
                  p.kind.TransitionStatus? && seen.Some? && seen.value.status != p.expectedStatus)
            && (found == Some(TargetMissing) <==>
                  p.kind.TransitionStatus? && seen.Some? && seen.value.status == p.expectedStatus
                  && p.targetStatus.None?)
            && (found == Some(NotesMoved) <==>
                  p.kind.UpdateNotes? && seen.Some? && seen.value.notes != p.expectedNotes)
            && (found == Some(NewNotesMissing) <==>
                  p.kind.UpdateNotes? && seen.Some? && seen.value.notes == p.expectedNotes && p.newNotes.None?)
  {
  }
}
