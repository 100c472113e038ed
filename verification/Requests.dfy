/** The services, repositories and routes of one request, over the session they share. */
module Requests {
  import opened Prelude
  import opened Authorization
  import opened Shipments
  import opened Actions
  import opened Conversations
  import opened Protocol
  import opened RequestSpec
  import Text

  /** The request's database session: what it sees, with its own uncommitted writes, and what is committed. */
  class Session {
    var view: Tables
    var committed: Tables

    constructor (tables: Tables)
      ensures view == committed == tables
    {
      view, committed := tables, tables;
    }

    method Commit()
      modifies this
      ensures view == committed == old(view)
    {
      committed := view;
    }

    method Rollback()
      modifies this
      ensures view == committed == old(committed)
    {
      view := committed;
    }
  }

  class ActionRepository {
    const session: Session

    constructor (session: Session)
      ensures this.session == session
    {
      this.session := session;
    }

    /** Inserts a pending row; the keys refuse a used id and a second active action of the conversation. */
    method CreateAction(owner: Owner, c: ConversationId, proposal: Proposal, id: ActionId) returns (row: Option<Action>)
      modifies session
      ensures session.committed == old(session.committed)
      ensures row.Some? <==> id !in old(session.view).actions && !HasActive(old(session.view).actions, c)
      ensures row.Some? ==> row.value == NewAction(owner, c, proposal)
      ensures session.view == if row.Some? then Stored(old(session.view), id, row.value) else old(session.view)
    {
      if id in session.view.actions || HasActive(session.view.actions, c) {
        return None;
      }
      row := Some(NewAction(owner, c, proposal));
      session.view := Stored(session.view, id, row.value);
    }

    method GetAction(owner: Owner, id: ActionId) returns (row: Option<Action>)
      ensures row == Owned(session.view, owner, id)
    {
      return if id in session.view.actions && session.view.actions[id].owner == owner
        then Some(session.view.actions[id]) else None;
    }

    /** The claim; `contended` when another request has taken the row since it was read. */
    method ClaimForExecution(owner: Owner, id: ActionId, at: int, contended: bool) returns (row: Option<Action>)
      modifies session
      ensures session.committed == old(session.committed)
      ensures var found := Owned(old(session.view), owner, id);
              row == if found.Some? && found.value.status.PendingConfirmation? && !contended
                     then Some(Claim(found.value, at)) else None
      ensures session.view == if row.Some? then Stored(old(session.view), id, row.value) else old(session.view)
    {
      var found := GetAction(owner, id);
      if found.None? || !found.value.status.PendingConfirmation? || contended {
        return None;
      }
      row := Some(found.value.(status := ActionStatus.Executing, confirmedAt := Some(at)));
      session.view := Stored(session.view, id, row.value);
    }

    /** None stands for the RuntimeError raised when the row is not `executing`. */
    method MarkExecuted(owner: Owner, id: ActionId, result: ResultSummary, at: int) returns (row: Option<Action>)
      modifies session
      ensures session.committed == old(session.committed)
      ensures var found := Owned(old(session.view), owner, id);
              row == if found.Some? && found.value.status.Executing?
                     then Some(Actions.MarkExecuted(found.value, result, at)) else None
      ensures session.view == if row.Some? then Stored(old(session.view), id, row.value) else old(session.view)
    {
      var found := GetAction(owner, id);
      if found.None? || !found.value.status.Executing? {
        return None;
      }
      row := Some(found.value.(status := ActionStatus.Executed, result := Some(result), executedAt := Some(at)));
      session.view := Stored(session.view, id, row.value);
    }

    method MarkFailed(owner: Owner, id: ActionId, reason: FailureReason, at: int) returns (row: Option<Action>)
      modifies session
      ensures session.committed == old(session.committed)
      ensures var found := Owned(old(session.view), owner, id);
              row == if found.Some? && found.value.status.Executing?
                     then Some(Actions.MarkFailed(found.value, reason, at)) else None
      ensures session.view == if row.Some? then Stored(old(session.view), id, row.value) else old(session.view)
    {
      var found := GetAction(owner, id);
      if found.None? || !found.value.status.Executing? {
        return None;
      }
      row := Some(found.value.(status := ActionStatus.Failed, failure := Some(reason), failedAt := Some(at)));
      session.view := Stored(session.view, id, row.value);
    }

    method MarkCancelled(owner: Owner, id: ActionId, at: int) returns (row: Option<Action>)
      modifies session
      ensures session.committed == old(session.committed)
      ensures var found := Owned(old(session.view), owner, id);
              row == if found.Some? && found.value.status.PendingConfirmation?
                     then Some(Actions.MarkCancelled(found.value, at)) else None
      ensures session.view == if row.Some? then Stored(old(session.view), id, row.value) else old(session.view)
    {
      var found := GetAction(owner, id);
      if found.None? || !found.value.status.PendingConfirmation? {
        return None;
      }
      row := Some(found.value.(status := ActionStatus.CancelledByUser, cancelledAt := Some(at)));
      session.view := Stored(session.view, id, row.value);
    }

    /** The audit use case only adds to the given session. */
    method RecordAudit(id: ActionId, event: AuditEvent)
      modifies session
      ensures session.committed == old(session.committed)
      ensures session.view == Recorded(old(session.view), id, event)
    {
      session.view := Recorded(session.view, id, event);
    }
  }

  function Stripped(text: Option<string>): Option<string> {
    if text.None? then None else Some(Text.Strip(text.value))
  }

  /** The shipments, written by their own use cases in their own transactions. */
  class ShipmentStore {
    var rows: map<ShipmentId, Shipment>
    /** `str.upper`, left open but for what `Valid` asks of it. */
    const upper: string -> string

    /** How the use cases clean the columns before they store them. */
    function Cleaned(details: Details): Details {
      Details(upper(Text.Strip(details.trackingNumber)), Stripped(details.reference), Stripped(details.description),
              details.rest)
    }

    /** Cleaning is final, and every stored row is clean. */
    ghost predicate Valid()
      reads this
    {
      && (forall text :: upper(Text.Strip(upper(Text.Strip(text)))) == upper(Text.Strip(text)))
      && (forall id :: id in rows ==> Cleaned(rows[id].details) == rows[id].details)
    }

    constructor (upper: string -> string)
      requires forall text :: upper(Text.Strip(upper(Text.Strip(text)))) == upper(Text.Strip(text))
      ensures Valid() && rows == map[] && this.upper == upper
    {
      this.upper := upper;
      rows := map[];
    }

    lemma CleaningIsFinal(details: Details)
      requires Valid()
      ensures Cleaned(Cleaned(details)) == Cleaned(details)
    {
      if details.reference.Some? {
        Text.StrippingIsFinal(details.reference.value);
      }
      if details.description.Some? {
        Text.StrippingIsFinal(details.description.value);
      }
    }

    /** The creation use case; `refused` when one of its checks raises, a used id among them. */
    method Create(id: ShipmentId, notes: Option<string>, details: Details, refused: bool)
      returns (created: Option<Shipment>)
      requires Valid()
      modifies this
      ensures Valid()
      ensures created.Some? <==> id !in old(rows) && !refused
      ensures created.Some? ==> created.value == Shipment(Draft, Stripped(notes), Cleaned(details))
      ensures rows == if created.Some? then old(rows)[id := created.value] else old(rows)
    {
      if id in rows || refused {
        return None;
      }
      CleaningIsFinal(details);
      created := Some(Shipment(Draft, Stripped(notes), Cleaned(details)));
      rows := rows[id := created.value];
    }

    /** The transition use case; None when it raises one of its errors. */
    method Transition(id: ShipmentId, target: ShipmentStatus) returns (updated: Option<Shipment>)
      requires Valid()
      modifies this
      ensures Valid()
      ensures updated.Some? <==> id in old(rows) && CanTransition(old(rows)[id].status, target)
      ensures updated.Some? ==> updated.value == old(rows)[id].(status := target)
      ensures rows == if updated.Some? then old(rows)[id := updated.value] else old(rows)
    {
      if id !in rows || !CanTransition(rows[id].status, target) {
        return None;
      }
      updated := Some(rows[id].(status := target));
      rows := rows[id := updated.value];
    }

    /**
     The update use case, given all columns; `refused` when one of its checks of tracking number, customer and locations
     raises. Columns given as they are stored are left as they are.
     */
    method Update(id: ShipmentId, notes: Option<string>, details: Details, refused: bool)
      returns (updated: Option<Shipment>)
      requires Valid()
      modifies this
      ensures Valid()
      ensures updated.Some? <==> id in old(rows) && !refused
      ensures updated.Some? ==>
                && updated.value == old(rows)[id].(notes := Stripped(notes), details := Cleaned(details))
                && (details == old(rows)[id].details ==> updated.value.details == details)
      ensures rows == if updated.Some? then old(rows)[id := updated.value] else old(rows)
    {
      if id !in rows || refused {
        return None;
      }
      CleaningIsFinal(details);
      updated := Some(rows[id].(notes := Stripped(notes), details := Cleaned(details)));
      rows := rows[id := updated.value];
    }
  }

  class AgentActionService {
    const repository: ActionRepository
    const shipments: ShipmentStore

    constructor (repository: ActionRepository, shipments: ShipmentStore)
      ensures this.repository == repository && this.shipments == shipments
    {
      this.repository, this.shipments := repository, shipments;
    }

    /** Checks for an active action and inserts; a violated key rolls the whole session back. */
    method Propose(owner: Owner, c: ConversationId, proposal: Proposal, id: ActionId)
      returns (r: Result<Action, ServiceError>)
      modifies repository.session
      ensures repository.session.committed == old(repository.session.committed)
      ensures r == if HasActiveOf(old(repository.session.view).actions, owner, c)
                      || id in old(repository.session.view).actions
                      || HasActive(old(repository.session.view).actions, c)
                   then Err(PendingActionExists) else Ok(NewAction(owner, c, proposal))
      ensures r.Ok? ==> repository.session.view
                        == Recorded(Stored(old(repository.session.view), id, r.value), id, WasProposed)
      ensures r.Err? ==> || repository.session.view == old(repository.session.view)
                         || repository.session.view == old(repository.session.committed)
    {
      if HasActiveOf(repository.session.view.actions, owner, c) {
        return Err(PendingActionExists);
      }
      var row := repository.CreateAction(owner, c, proposal, id);
      if row.None? {
        repository.session.Rollback();
        return Err(PendingActionExists);
      }
      repository.RecordAudit(id, WasProposed);
      return Ok(row.value);
    }

    /** Runs the stored action against the shipment; an error leaves the shipment as it was. */
    method ExecuteClaimedAction(p: Proposal, refused: bool) returns (r: Result<ResultSummary, FailureReason>)
      requires shipments.Valid()
      modifies shipments
      ensures shipments.Valid()
      ensures var failure := ExecutionFailure(p, Visible(old(shipments.rows), p.shipment), refused);
              && (r.Err? <==> failure.Some?)
              && (r.Err? ==> Some(r.error) == failure && shipments.rows == old(shipments.rows))
              && (r.Ok? ==>
                    && p.shipment in old(shipments.rows)
                    && r.value == Summary(p, old(shipments.rows)[p.shipment])
                    && shipments.rows == old(shipments.rows)[
                         p.shipment := ExecutedShipment(p, old(shipments.rows)[p.shipment])])
      ensures r.Ok? ==>
                && p.shipment in old(shipments.rows)
                && var s := old(shipments.rows)[p.shipment];
                match p.kind
                case TransitionStatus =>
                  && p.targetStatus.Some? && s.status == p.expectedStatus
                  && shipments.rows == old(shipments.rows)[
                       p.shipment := Shipment(p.targetStatus.value, s.notes, s.details)]
                  && r.value == StatusChanged(s.details.trackingNumber, p.expectedStatus, p.targetStatus.value)
                case UpdateNotes =>
                  && p.newNotes.Some? && s.notes == p.expectedNotes
                  && shipments.rows == old(shipments.rows)[
                       p.shipment := Shipment(s.status, Some(Text.Strip(p.newNotes.value)), s.details)]
                  && r.value == NotesReplaced(s.details.trackingNumber)
    {
      if p.shipment !in shipments.rows {
        return Err(ShipmentRefused);
      }
      var seen := shipments.rows[p.shipment];
      match p.kind {
        case TransitionStatus =>
          if seen.status != p.expectedStatus {
            return Err(StatusMoved);
          }
          if p.targetStatus.None? {
            return Err(TargetMissing);
          }
          var updated := shipments.Transition(p.shipment, p.targetStatus.value);
          if updated.None? {
            return Err(ShipmentRefused);
          }
          return Ok(StatusChanged(updated.value.details.trackingNumber, seen.status, p.targetStatus.value));
        case UpdateNotes =>
          if seen.notes != p.expectedNotes {
            return Err(NotesMoved);
          }
          if p.newNotes.None? {
            return Err(NewNotesMissing);
          }
          var updated := shipments.Update(p.shipment, p.newNotes, seen.details, refused);
          if updated.None? {
            return Err(ShipmentRefused);
          }
          return Ok(NotesReplaced(updated.value.details.trackingNumber));
      }
    }

    /** Marks, records and commits the failure of a claimed action. */
    method FailAction(owner: Owner, id: ActionId, reason: FailureReason, at: int)
      requires Owned(repository.session.view, owner, id).Some?
      requires Owned(repository.session.view, owner, id).value.status.Executing?
      modifies repository.session
      ensures repository.session.view == repository.session.committed
      ensures repository.session.view
              == Recorded(Stored(old(repository.session.view), id,
                                 MarkFailed(old(repository.session.view).actions[id], reason, at)), id, WasFailed)
    {
      var failed := repository.MarkFailed(owner, id, reason, at);
      assert failed.Some?;
      repository.RecordAudit(id, WasFailed);
      repository.session.Commit();
    }

    /**
     Confirms an action. Nothing but a claimed action's outcome is committed, and with it everything at once; the
     guarded updates that mark the outcome always match.
     */
    method Confirm(owner: Owner, id: ActionId, granted: set<Permission>, claimedAt: int, markedAt: int,
                   contended: bool, refused: bool) returns (reply: Result<Mutation, ServiceError>)
      requires shipments.Valid()
      modifies repository.session, shipments
      ensures shipments.Valid()
      ensures var done := ConfirmationOf(old(repository.session.view), old(shipments.rows), owner, id, granted,
                                         claimedAt, markedAt, contended, refused);
              && reply == done.reply
              && repository.session.view == done.tables
              && shipments.rows == done.shipments
              && repository.session.committed
                 == if ConfirmRefusal(Owned(old(repository.session.view), owner, id), granted).None? && !contended
                    then done.tables else old(repository.session.committed)
    {
      var current := repository.GetAction(owner, id);
      if current.None? {
        return Err(ActionNotFound);
      }
      if !MayConfirm(current.value.proposal.kind, granted) {
        return Err(PermissionDenied);
      }
      if current.value.status.Executed? {
        return Ok(Mutation(current.value, false));
      }
      if current.value.status.Executing? {
        return Err(ActionInProgress);
      }
      if !current.value.status.PendingConfirmation? {
        return Err(ActionConflict(current.value.status));
      }
      var claimed := repository.ClaimForExecution(owner, id, claimedAt, contended);
      if claimed.None? {
        return Err(ActionInProgress);
      }
      repository.RecordAudit(id, WasConfirmed);
      var result := ExecuteClaimedAction(claimed.value.proposal, refused);
      if result.Err? {
        FailAction(owner, id, result.error, markedAt);
        SettledTwice(old(repository.session.view), id, claimed.value, MarkFailed(claimed.value, result.error, markedAt),
                     WasFailed);
        return Err(ExecutionFailed(result.error));
      }
      var executed := repository.MarkExecuted(owner, id, result.value, markedAt);
      repository.RecordAudit(id, WasExecuted);
      SettledTwice(old(repository.session.view), id, claimed.value, executed.value, WasExecuted);
      repository.session.Commit();
      return Ok(Mutation(executed.value, true));
    }

    /** Cancels a pending action and commits; any other status is answered and left alone. */
    method Cancel(owner: Owner, id: ActionId, at: int) returns (reply: Result<Mutation, ServiceError>)
      modifies repository.session
      ensures var done := CancellationOf(old(repository.session.view), owner, id, at);
              && reply == done.reply
              && repository.session.view == done.tables
              && repository.session.committed
                 == if reply.Ok? && reply.value.changed then done.tables else old(repository.session.committed)
    {
      var cancelled := repository.MarkCancelled(owner, id, at);
      if cancelled.None? {
        var current := repository.GetAction(owner, id);
        if current.None? {
          return Err(ActionNotFound);
        }
        if current.value.status.CancelledByUser? {
          return Ok(Mutation(current.value, false));
        }
        if current.value.status.Executing? {
          return Err(ActionInProgress);
        }
        return Err(ActionConflict(current.value.status));
      }
      repository.RecordAudit(id, WasCancelled);
      repository.session.Commit();
      return Ok(Mutation(cancelled.value, true));
    }
  }

  /** Claiming, recording and settling in turn is settling and recording at once. */
  lemma SettledTwice(tables: Tables, id: ActionId, claimed: Action, settled: Action, event: AuditEvent)
    ensures Recorded(Stored(Recorded(Stored(tables, id, claimed), id, WasConfirmed), id, settled), id, event)
            == Recorded(Recorded(Stored(tables, id, settled), id, WasConfirmed), id, event)
  {
  }

  class ConversationRepository {
    const session: Session

    constructor (session: Session)
      ensures this.session == session
    {
      this.session := session;
    }

    /** The caller's conversation, unless it is deleted. */
    method GetConversation(owner: Owner, c: ConversationId) returns (conv: Option<Conversation>)
      ensures conv == if IsOpenTo(session.view.conversations, c, owner) then Some(session.view.conversations[c])
                      else None
    {
      return if c in session.view.conversations && session.view.conversations[c].owner == owner
                && !session.view.conversations[c].deleted
        then Some(session.view.conversations[c]) else None;
    }

    /** Reads the newest `limit` messages, newest first, and reverses them in place. */
    method ListRecentMessages(owner: Owner, c: ConversationId, limit: nat) returns (messages: seq<Message>)
      ensures messages == if IsOpenTo(session.view.conversations, c, owner)
                          then Recent(session.view.conversations[c].messages, limit) else []
    {
      var conv := GetConversation(owner, c);
      if conv.None? {
        return [];
      }
      var all := conv.value.messages;
      var n := if |all| <= limit then |all| else limit;
      var newest := new Message[n](i requires 0 <= i < n && n <= |all| => all[|all| - 1 - i]);
      Reverse(newest);
      assert newest[..] == Recent(all, limit);
      return newest[..];
    }

    /** Adds a message at the end; None when the conversation does not exist. */
    method AddMessage(c: ConversationId, role: Role, body: Body) returns (added: Option<Message>)
      modifies session
      ensures session.committed == old(session.committed)
      ensures added == if c in old(session.view).conversations then Some(Message(role, body)) else None
      ensures session.view
              == if added.None? then old(session.view)
                 else
                   var conv := old(session.view).conversations[c];
                   Placed(old(session.view), c, conv.(messages := conv.messages + [added.value]))
    {
      if c !in session.view.conversations {
        return None;
      }
      var conv := session.view.conversations[c];
      added := Some(Message(role, body));
      session.view := Placed(session.view, c, conv.(messages := conv.messages + [added.value]));
    }

    method DeleteConversation(owner: Owner, c: ConversationId) returns (deleted: bool)
      modifies session
      ensures session.committed == old(session.committed)
      ensures deleted <==> IsOpenTo(old(session.view).conversations, c, owner)
      ensures session.view
              == if deleted then Placed(old(session.view), c, old(session.view).conversations[c].(deleted := true))
                 else old(session.view)
    {
      var conv := GetConversation(owner, c);
      if conv.None? {
        return false;
      }
      session.view := Placed(session.view, c, conv.value.(deleted := true));
      return true;
    }

    method UpdateTitle(owner: Owner, c: ConversationId, title: Title)
      modifies session
      ensures session.committed == old(session.committed)
      ensures session.view
              == if !IsOpenTo(old(session.view).conversations, c, owner) then old(session.view)
                 else Placed(old(session.view), c, old(session.view).conversations[c].(title := title))
    {
      var conv := GetConversation(owner, c);
      if conv.None? {
        return;
      }
      session.view := Placed(session.view, c, conv.value.(title := title));
    }

    /** Assigns the three continuation columns of the caller's conversation. */
    method SetContinuation(owner: Owner, c: ConversationId, continuation: Option<Continuation>)
      modifies session
      ensures session.committed == old(session.committed)
      ensures session.view
              == if !IsOpenTo(old(session.view).conversations, c, owner) then old(session.view)
                 else
                   Placed(old(session.view), c,
                          old(session.view).conversations[c].(continuation := StoreContinuation(continuation)))
    {
      var conv := GetConversation(owner, c);
      if conv.None? {
        return;
      }
      var columns := NO_CONTINUATION;
      if continuation.Some? {
        columns := ContinuationColumns(Some(ShipmentSelection), Some(continuation.value.route),
                                       Some(continuation.value.originalIdentifier));
      }
      session.view := Placed(session.view, c, conv.value.(continuation := columns));
    }
  }

  method Reverse(a: array<Message>)
    modifies a
    ensures forall k :: 0 <= k < a.Length ==> a[k] == old(a[a.Length - 1 - k])
  {
    var i := 0;
    while i < a.Length / 2
      invariant 0 <= i <= a.Length / 2
      invariant forall k :: (0 <= k < i || a.Length - i <= k < a.Length) ==> a[k] == old(a[a.Length - 1 - k])
      invariant forall k :: i <= k < a.Length - i ==> a[k] == old(a[k])
    {
      a[i], a[a.Length - 1 - i] := a[a.Length - 1 - i], a[i];
      i := i + 1;
    }
  }

  datatype PreparedTurn = PreparedTurn(context: seq<Message>, continuation: Option<Continuation>)

  class ConversationService {
    const repository: ConversationRepository

    constructor (repository: ConversationRepository)
      ensures this.repository == repository
    {
      this.repository := repository;
    }

    /** Reads the context, titles a new conversation and adds the question; nothing is committed. */
    method PrepareTurn(owner: Owner, c: ConversationId, question: string) returns (r: Option<PreparedTurn>)
      modifies repository.session
      ensures repository.session.committed == old(repository.session.committed)
      ensures r.Some? <==> IsOpenTo(old(repository.session.view).conversations, c, owner)
      ensures r.None? ==> repository.session.view == old(repository.session.view)
      ensures r.Some? ==>
                var conv := old(repository.session.view).conversations[c];
                && r.value == PreparedTurn(Recent(conv.messages, MAX_CONTEXT_MESSAGES),
                                           BuildContinuation(conv.continuation))
                && repository.session.view
                   == Placed(old(repository.session.view), c,
                             conv.(title := Titled(conv, question),
                                   messages := conv.messages + [Message(User, Words(question))]))
    {
      var conv := repository.GetConversation(owner, c);
      if conv.None? {
        return None;
      }
      var recent := repository.ListRecentMessages(owner, c, MAX_CONTEXT_MESSAGES);
      if recent == [] && conv.value.title.DefaultTitle? {
        repository.UpdateTitle(owner, c, TitleOf(question));
      }
      var _ := repository.AddMessage(c, User, Words(question));
      return Some(PreparedTurn(recent, BuildContinuation(conv.value.continuation)));
    }

    /**
     Adds the answer, sets the continuation of a conversation still open, and commits everything; a conversation that
     does not exist is an error of the message's foreign key.
     */
    method CompleteTurn(owner: Owner, c: ConversationId, answer: Body, continuation: Option<Continuation>)
      returns (ok: bool)
      modifies repository.session
      ensures ok <==> c in old(repository.session.view).conversations
      ensures !ok ==> repository.session.view == old(repository.session.view)
      ensures !ok ==> repository.session.committed == old(repository.session.committed)
      ensures ok ==>
                && repository.session.committed == repository.session.view
                && var conv := old(repository.session.view).conversations[c];
                repository.session.view
                == Placed(old(repository.session.view), c,
                          conv.(messages := conv.messages + [Message(Assistant, answer)],
                                continuation := if IsOpenTo(old(repository.session.view).conversations, c, owner)
                                then StoreContinuation(continuation) else conv.continuation))
    {
      var added := repository.AddMessage(c, Assistant, answer);
      if added.None? {
        return false;
      }
      repository.SetContinuation(owner, c, continuation);
      repository.session.Commit();
      return true;
    }

    /** Marks the caller's conversation deleted, or rolls back when there is none. */
    method Delete(owner: Owner, c: ConversationId) returns (deleted: bool)
      modifies repository.session
      ensures deleted <==> IsOpenTo(old(repository.session.view).conversations, c, owner)
      ensures repository.session.view == repository.session.committed
      ensures repository.session.view
              == if !deleted then old(repository.session.committed)
                 else
                   Placed(old(repository.session.view), c,
                          old(repository.session.view).conversations[c].(deleted := true))
    {
      deleted := repository.DeleteConversation(owner, c);
      if deleted {
        repository.session.Commit();
      } else {
        repository.session.Rollback();
      }
    }
  }

  /** A turn's question and its answer, put down one after the other, are the turn put down at once. */
  lemma PlacedTwice(tables: Tables, c: ConversationId, question: string, result: AgentResult)
    requires c in tables.conversations
    ensures var conv := tables.conversations[c];
            var asked := conv.(title := Titled(conv, question),
                               messages := conv.messages + [Message(User, Words(question))]);
            Placed(Placed(tables, c, asked), c,
                   asked.(messages := asked.messages + [Message(Assistant, result.answer)],
                          continuation := StoreContinuation(result.continuation)))
            == Placed(tables, c, AfterTurn(conv, question, result))
  {
    var messages := tables.conversations[c].messages;
    assert messages + [Message(User, Words(question))] + [Message(Assistant, result.answer)]
        == messages + [Message(User, Words(question)), Message(Assistant, result.answer)];
  }

  class AgentRoutes {
    const actions: AgentActionService
    const conversations: ConversationService

    constructor (actions: AgentActionService, conversations: ConversationService)
      ensures this.actions == actions && this.conversations == conversations
    {
      this.actions, this.conversations := actions, conversations;
    }

    /** Both services share the request's session. */
    predicate Valid() {
      actions.repository.session == conversations.repository.session
    }

    /**
     A turn of a stored conversation on a fresh session. It commits once, at the end; every refusal and every
     exception rolls the session back to what was committed.
     */
    method RunAgent(owner: Owner, c: ConversationId, question: string, requested: Option<Option<Continuation>>,
                    run: (Option<Continuation>, seq<Message>) -> Option<AgentResult>, id: ActionId)
      returns (reply: Result<AgentResult, ServiceError>)
      requires Valid() && actions.repository.session.view == actions.repository.session.committed
      modifies actions.repository.session
      ensures var done := TurnOf(old(actions.repository.session.committed), owner, c, question, requested, run, id);
              && reply == done.reply
              && actions.repository.session.committed == done.tables
              && actions.repository.session.view == done.tables
    {
      var session := actions.repository.session;
      ghost var before := session.committed;
      if HasActiveOf(session.view.actions, owner, c) {
        session.Rollback();
        return Err(PendingActionExists);
      }
      var prepared := conversations.PrepareTurn(owner, c, question);
      if prepared.None? {
        session.Rollback();
        return Err(ConversationNotFound);
      }
      var continuation := prepared.value.continuation;
      if requested.Some? {
        if requested.value.Some? && requested.value != prepared.value.continuation {
          session.Rollback();
          return Err(ContinuationMismatch);
        }
        continuation := requested.value;
      }
      var result := run(continuation, prepared.value.context);
      if result.None? {
        session.Rollback();
        return Err(AgentFailed);
      }
      if result.value.proposal.Some? {
        var proposed := actions.Propose(owner, c, result.value.proposal.value, id);
        if proposed.Err? {
          session.Rollback();
          return Err(PendingActionExists);
        }
      }
      var _ := conversations.CompleteTurn(owner, c, result.value.answer, result.value.continuation);
      PlacedTwice(before, c, question, result.value);
      return Ok(result.value);
    }

    /** Confirms, and answers a changed action in its conversation with a second commit. */
    method ConfirmAction(owner: Owner, id: ActionId, granted: set<Permission>, claimedAt: int, markedAt: int,
                         contended: bool, refused: bool) returns (reply: Result<Mutation, ServiceError>)
      requires Valid() && actions.shipments.Valid() && ActionsHaveConversations(actions.repository.session.view)
      modifies actions.repository.session, actions.shipments
      ensures actions.shipments.Valid()
      ensures reply.Ok? && reply.value.changed ==> reply.value.action.result.Some?
      ensures var before := old(actions.repository.session.view);
              var done := ConfirmationOf(before, old(actions.shipments.rows), owner, id, granted, claimedAt, markedAt,
                                         contended, refused);
              && reply == done.reply
              && actions.shipments.rows == done.shipments
              && actions.repository.session.view
                 == (if reply.Ok? && reply.value.changed
                     then Told(done.tables, owner, reply.value.action.conversation,
                               ActionResult(reply.value.action.result.value))
                     else done.tables)
              && actions.repository.session.committed
                 == (if ConfirmRefusal(Owned(before, owner, id), granted).None? && !contended
                     then actions.repository.session.view else old(actions.repository.session.committed))
    {
      reply := actions.Confirm(owner, id, granted, claimedAt, markedAt, contended, refused);
      if reply.Ok? && reply.value.changed {
        var _ := conversations.CompleteTurn(owner, reply.value.action.conversation,
                                            ActionResult(reply.value.action.result.value), None);
      }
    }

    /** Cancels, and says so in the action's conversation with a second commit. */
    method CancelAction(owner: Owner, id: ActionId, at: int) returns (reply: Result<Mutation, ServiceError>)
      requires Valid() && ActionsHaveConversations(actions.repository.session.view)
      modifies actions.repository.session
      ensures var done := CancellationOf(old(actions.repository.session.view), owner, id, at);
              && reply == done.reply
              && actions.repository.session.view
                 == (if reply.Ok? && reply.value.changed
                     then Told(done.tables, owner, reply.value.action.conversation,
                               ActionCancelled(reply.value.action.proposal.summary))
                     else done.tables)
              && actions.repository.session.committed
                 == (if reply.Ok? && reply.value.changed
                     then actions.repository.session.view else old(actions.repository.session.committed))
    {
      reply := actions.Cancel(owner, id, at);
      if reply.Ok? && reply.value.changed {
        var _ := conversations.CompleteTurn(owner, reply.value.action.conversation,
                                            ActionCancelled(reply.value.action.proposal.summary), None);
      }
    }
  }

  /** The foreign key of the action table. */
  predicate ActionsHaveConversations(tables: Tables) {
    forall a :: a in tables.actions ==> tables.actions[a].conversation in tables.conversations
  }
}
