/** The protocol's guarantees, over every run: any interleaving of requests, other writers and crashes. */
module ProtocolTheorems {
  import opened Prelude
  import opened Authorization
  import opened Shipments
  import opened Actions
  import opened Conversations
  import opened Protocol
  import opened ProtocolInvariant
  import opened ProtocolSafety
  import opened ProtocolHistory
  import opened ProtocolAttempts
  import opened ProtocolFreshness
  import opened ProtocolTalk
  import opened ProtocolOwnership
  import opened ProtocolTitles
  import Text

  ghost predicate Invariant(w: World) {
    Safe(w) && Conserved(w) && Restoring(w) && Once(w) && Talking(w) && Placed(w) && Titled(w)
  }

  lemma StepKeepsInvariant(w: World, e: Event)
    requires Invariant(w)
    ensures Invariant(Step(w, e))
  {
    StepKeepsSafe(w, e);
    StepConserves(w, e);
    StepKeepsRestoring(w, e);
    StepKeepsOnce(w, e);
    StepKeepsTalking(w, e);
    StepKeepsPlaced(w, e);
    StepKeepsTitled(w, e);
  }

  lemma InitialInvariant(w: World)
    requires Initial(w)
    ensures Invariant(w)
  {
  }

  lemma {:induction false} RunKeepsInvariant(w: World, events: seq<Event>)
    requires Invariant(w)
    ensures Invariant(Run(w, events))
  {
    if events != [] {
      RunKeepsInvariant(w, events[..|events| - 1]);
      StepKeepsInvariant(Run(w, events[..|events| - 1]), events[|events| - 1]);
    }
  }

  lemma ReachableInvariant(w: World)
    requires Reachable(w)
    ensures Invariant(w)
  {
    var w0, events :| Initial(w0) && w == Run(w0, events);
    InitialInvariant(w0);
    RunKeepsInvariant(w0, events);
  }

  // ---- committed rows ----

  /**
   A committed action is never `executing`; its columns are the ones its status demands, its audit
   trail is the one its status determines, and a conversation has at most one active action.
   */
  lemma CommittedRowsAtRest(w: World)
    requires Reachable(w)
    ensures forall a :: a in w.actions ==>
              && !w.actions[a].status.Executing?
              && FieldsMatchStatus(w.actions[a])
              && a in w.audit && w.audit[a] == TrailFor(w.actions[a].status)
    ensures forall a, b ::
              (a in w.actions && b in w.actions && a != b && IsActive(w.actions[a]) && IsActive(w.actions[b]))
              ==> w.actions[a].conversation != w.actions[b].conversation
  {
    ReachableInvariant(w);
    assert OneActive(w.actions);
    forall a | a in w.actions ensures AtRest(w.actions[a]) {
      assert RowsRest(w.actions);
    }
  }

  /**
   At most one request is between claiming an action and committing it, the row it holds is `executing` until it
   is marked, and so the guarded updates that mark it executed or failed always match.
   */
  lemma ClaimHolderIsUnique(w: World, t: TxId)
    requires Reachable(w) && t in w.txs && IsClaimHolder(w.txs[t])
    ensures w.txs[t].row.Some? && w.txs[t].row.value.status.Executing?
    ensures w.txs[t].action in w.actions && w.actions[w.txs[t].action].status.PendingConfirmation?
    ensures forall u :: u in w.txs && u != t && w.txs[u].row.Some? ==> w.txs[u].action != w.txs[t].action
    ensures forall at, reason ::
              t in FailRow(w, t, reason, at).txs && FailRow(w, t, reason, at).txs[t].pc.Committing?
    ensures w.txs[t].pc.MarkingExecuted? ==>
              forall at :: t in MarkRowExecuted(w, t, at).txs && MarkRowExecuted(w, t, at).txs[t].pc.Committing?
  {
    ReachableInvariant(w);
    SafeTransactionFits(w, t);
    assert HoldsClaim(w.actions, w.txs[t]);
    GuardsMatch(w, t);
  }

  /** The guarded updates match a row that is executing. */
  lemma GuardsMatch(w: World, t: TxId)
    requires t in w.txs && w.txs[t].row.Some? && w.txs[t].row.value.status.Executing?
    ensures forall at, reason ::
              t in FailRow(w, t, reason, at).txs && FailRow(w, t, reason, at).txs[t].pc.Committing?
    ensures w.txs[t].pc.MarkingExecuted? ==>
              forall at :: t in MarkRowExecuted(w, t, at).txs && MarkRowExecuted(w, t, at).txs[t].pc.Committing?
  {
  }

  /** The row keeps its request, and keeps everything if it is settled. */
  predicate Keeps(rows: Rows, rows': Rows, a: ActionId) {
    && a in rows && a in rows' && SameRequest(rows'[a], rows[a])
    && (!IsActive(rows[a]) ==> rows'[a] == rows[a])
  }

  lemma OutcomeKeepsSettled(w: World, t: TxId, a: ActionId)
    requires Safe(w) && a in w.actions
    ensures Keeps(w.actions, CommitOutcome(w, t).actions, a)
  {
    SafeTransactionFits(w, t);
    if t in w.txs && w.txs[t].pc.Committing? {
      CommitOutcomeWrites(w, t);
    }
  }

  lemma TurnKeepsSettled(w: World, t: TxId, a: ActionId)
    requires Safe(w) && a in w.actions
    ensures Keeps(w.actions, CompleteTurn(w, t).actions, a)
  {
    SafeTransactionFits(w, t);
    if t in w.txs && w.txs[t].pc.Completing? {
      CompleteTurnWrites(w, t);
    }
  }

  /** What the two commits keep, every committing step keeps. */
  lemma CommitStepKeepsSettled(w: World, e: Event, a: ActionId)
    requires e.ECommitOutcome? ==> Keeps(w.actions, CommitOutcome(w, e.t).actions, a)
    requires e.ECompleteTurn? ==> Keeps(w.actions, CompleteTurn(w, e.t).actions, a)
    requires e.ECommitOutcome? || e.ECompleteTurn?
    ensures Keeps(w.actions, Step(w, e).actions, a)
  {
  }

  lemma StepKeepsSettled(w: World, e: Event, a: ActionId)
    requires Safe(w) && a in w.actions
    ensures Keeps(w.actions, Step(w, e).actions, a)
  {
    if e.ECommitOutcome? {
      OutcomeKeepsSettled(w, e.t, a);
      CommitStepKeepsSettled(w, e, a);
    } else if e.ECompleteTurn? {
      TurnKeepsSettled(w, e.t, a);
      CommitStepKeepsSettled(w, e, a);
    } else {
      OtherStepKeepsSettled(w, e, a);
    }
  }

  lemma OtherStepKeepsSettled(w: World, e: Event, a: ActionId)
    requires Safe(w) && a in w.actions && !e.ECommitOutcome? && !e.ECompleteTurn?
    ensures Keeps(w.actions, Step(w, e).actions, a)
  {
    OtherStepKeepsRows(w, e);
    assert Keeps(w.actions, w.actions, a);
  }

  /** Whatever happens next, an action keeps its request, and an executed, failed or cancelled one never changes. */
  lemma {:induction false} SettledForever(w: World, events: seq<Event>, a: ActionId)
    requires Reachable(w) && a in w.actions
    ensures a in Run(w, events).actions && SameRequest(Run(w, events).actions[a], w.actions[a])
    ensures !IsActive(w.actions[a]) ==> Run(w, events).actions[a] == w.actions[a]
  {
    ReachableInvariant(w);
    if events != [] {
      SettledForever(w, events[..|events| - 1], a);
      RunKeepsInvariant(w, events[..|events| - 1]);
      StepKeepsSettled(Run(w, events[..|events| - 1]), events[|events| - 1], a);
    }
  }

  /** What was stored asks for a real change, by a legal step from the status it expects. */
  lemma StoredProposalAsks(w: World, a: ActionId)
    requires Reachable(w) && a in w.actions
    ensures AsksForChange(w.actions[a].proposal)
  {
    ReachableInvariant(w);
  }

  // ---- effects ----

  /**
   Conservation: an action's shipment writes are exactly one if it is executed, one per attempt that died between
   the shipment commit and the action commit, and one if such a commit is outstanding now.
   */
  lemma EffectsAreConserved(w: World, a: ActionId)
    requires Reachable(w)
    ensures EffectsBy(w.writes, a) == (if IsExecuted(w.actions, a) then 1 else 0) + w.orphans[a]
                                      + (if AwaitsCommit(w.txs, a) then 1 else 0)
  {
    ReachableInvariant(w);
    assert Balanced(w, a);
  }

  /**
   A committed `executed` action took effect at least once, and exactly once if and only if none of its attempts
   was orphaned; a `failed` or `cancelled` one took effect if and only if an attempt was orphaned.
   */
  lemma ExactlyOnceUnlessOrphaned(w: World, a: ActionId)
    requires Reachable(w) && a in w.actions && !IsActive(w.actions[a])
    ensures w.actions[a].status.Executed? ==>
              EffectsBy(w.writes, a) >= 1 && (EffectsBy(w.writes, a) == 1 <==> a !in w.orphans)
    ensures !w.actions[a].status.Executed? ==> (EffectsBy(w.writes, a) == 0 <==> a !in w.orphans)
  {
    EffectsAreConserved(w, a);
    ReachableInvariant(w);
    SettledAwaitsNothing(w, a);
  }

  lemma SettledAwaitsNothing(w: World, a: ActionId)
    requires Safe(w) && a in w.actions && !IsActive(w.actions[a])
    ensures !AwaitsCommit(w.txs, a)
  {
    forall t ensures PendingOf(w.txs, t) != Some(a) {
      SafeTransactionFits(w, t);
    }
  }

  /** Between two effects of one action, another writer put the shipment back into the state the action expects. */
  lemma RepeatedEffectsWereRestored(w: World, a: ActionId, i: nat, j: nat)
    requires Reachable(w) && i < j < |w.writes| && w.writes[i].agent == Some(a) && w.writes[j].agent == Some(a)
    ensures a in w.actions
    ensures exists k :: i < k < j && Restores(w.writes[k], w.actions[a].proposal) && w.writes[k].agent != Some(a)
  {
    ReachableInvariant(w);
    assert w.writes[i].agent.Some?;
    assert RowRestored(w, a);
    assert Separated(w.writes, a, w.actions[a].proposal);
  }

  /**
   A claimed action goes on to its use case exactly when the shipment is in the state the proposal expects; in
   any other case its row is marked failed.
   */
  lemma ProceedsExactlyWhenExpected(w: World, t: TxId, at: int)
    requires Reachable(w) && At(w, t, ReadingShipment)
    ensures w.txs[t].action in w.actions
    ensures var a, v := w.txs[t].action, ReadShipment(w, t, at);
            && t in v.txs
            && (v.txs[t].pc.UseCaseReading? <==> IsExpected(w.actions[a].proposal, w.shipments))
            && (v.txs[t].pc.UseCaseReading? || (v.txs[t].pc.Committing? && v.txs[t].row.Some?
                                                && v.txs[t].row.value.status.Failed?))
  {
    ReachableInvariant(w);
    ClaimedRequestIsReal(w, t);
    ReadShipmentDecides(w, t, at);
  }

  lemma ReadShipmentDecides(w: World, t: TxId, at: int)
    requires At(w, t, ReadingShipment) && w.txs[t].row.Some? && w.txs[t].row.value.status.Executing?
    requires AsksForChange(w.txs[t].row.value.proposal)
    ensures var p, v := w.txs[t].row.value.proposal, ReadShipment(w, t, at);
            && t in v.txs
            && (IsExpected(p, w.shipments) ==> v.txs[t].pc.UseCaseReading?)
            && (!IsExpected(p, w.shipments) ==> v.txs[t].pc.Committing? && v.txs[t].row.Some?
                                                && v.txs[t].row.value.status.Failed?)
  {
    var p := w.txs[t].row.value.proposal;
    ExpectationIsChecked(p, w.shipments);
    match ExpectationFailure(p, Visible(w.shipments, p.shipment))
    case Some(reason) => assert ReadShipment(w, t, at) == FailRow(w, t, reason, at);
    case None =>
  }

  lemma ExpectationIsChecked(p: Proposal, shipments: map<ShipmentId, Shipment>)
    requires AsksForChange(p)
    ensures ExpectationFailure(p, Visible(shipments, p.shipment)).None? <==> IsExpected(p, shipments)
  {
  }

  lemma ClaimedRequestIsReal(w: World, t: TxId)
    requires Invariant(w) && At(w, t, ReadingShipment)
    ensures w.txs[t].action in w.actions
    ensures AsksForChange(w.actions[w.txs[t].action].proposal)
    ensures w.txs[t].row.Some? && w.txs[t].row.value.status.Executing?
    ensures w.txs[t].row.value.proposal == w.actions[w.txs[t].action].proposal
  {
    SafeTransactionFits(w, t);
    assert RowRestored(w, w.txs[t].action);
  }

  /** An action that has taken effect before is expected again only if another writer restored its shipment since. */
  lemma RetryNeedsRestoration(w: World, a: ActionId)
    requires Reachable(w) && a in w.actions && EffectsBy(w.writes, a) > 0
    ensures IsExpected(w.actions[a].proposal, w.shipments) ==> RestoredSince(w.writes, a, w.actions[a].proposal)
  {
    ReachableInvariant(w);
    assert RowRestored(w, a);
  }

  /**
   A transition takes effect at most once more than other writers set the status of its shipment on an outdated read,
   over every interleaving, retry and crash; and if none of them did, at most once, and exactly once when executed.
   */
  lemma TransitionTakesEffectAtMostOnce(w: World, a: ActionId)
    requires Reachable(w) && IsTransition(w.actions, a)
    ensures EffectsBy(w.writes, a) <= 1 + StaleWrites(w.writes, w.actions[a].proposal.shipment, a)
    ensures OthersFresh(w.writes, w.actions[a].proposal.shipment, a) ==>
              && EffectsBy(w.writes, a) <= 1
              && (w.actions[a].status.Executed? ==> EffectsBy(w.writes, a) == 1 && a !in w.orphans)
  {
    ReachableInvariant(w);
    var p := w.actions[a].proposal;
    assert Bounded(w.writes, w.shipments, a, p);
    FreshWritesAreNotStale(w.writes, p.shipment, a);
    EffectsAreConserved(w, a);
  }

  /**
   Every shipment write of the agent is to the shipment of a stored proposal and writes exactly the status or the notes
   proposed; proposal and confirmation both had the two permissions of its kind; and a status it writes was reached by
   a legal step from the status the use case had read.
   */
  lemma EffectsAreAuthorized(w: World, i: nat)
    requires Reachable(w) && i < |w.writes| && w.writes[i].agent.Some?
    ensures var x, a := w.writes[i], w.writes[i].agent.value;
            && a in w.actions && a in w.proposedWith
            && x.shipment == w.actions[a].proposal.shipment
            && match w.actions[a].proposal.kind
               case TransitionStatus =>
                 && x.StatusWrite? && Some(x.after) == w.actions[a].proposal.targetStatus
                 && CanTransition(x.seen, x.after)
                 && {ShipmentRead, ShipmentTransition} <= w.proposedWith[a]
                 && {ShipmentRead, ShipmentTransition} <= x.granted
               case UpdateNotes =>
                 && x.NotesWrite? && x.notesAfter.Some? && x.notesAfter == w.actions[a].proposal.newNotes
                 && {ShipmentRead, ShipmentUpdate} <= w.proposedWith[a]
                 && {ShipmentRead, ShipmentUpdate} <= x.granted
  {
    ReachableInvariant(w);
  }

  // ---- conversations ----

  /** Questions never outnumber answers, and every committed action follows its question and its announcement. */
  lemma ConversationsAreComplete(w: World)
    requires Reachable(w)
    ensures forall c :: c in w.conversations ==>
              CountRole(w.conversations[c].messages, User) <= CountRole(w.conversations[c].messages, Assistant)
    ensures forall a :: a in w.actions ==>
              && w.actions[a].conversation in w.conversations
              && Announces(w.conversations[w.actions[a].conversation].messages, w.actions[a].proposal)
  {
    ReachableInvariant(w);
    forall c | c in w.conversations ensures Answered(w.conversations[c].messages) {
      assert AllAnswered(w.conversations);
    }
  }

  /**
   Every stored title is the default one or built from a question the conversation holds, and has at most 120
   characters.
   */
  lemma TitlesFitAndAsk(w: World, c: ConversationId)
    requires Reachable(w) && c in w.conversations
    ensures |TitleText(w.conversations[c].title)| <= Text.MAX_TITLE_LENGTH
    ensures w.conversations[c].title.DefaultTitle?
            || exists i :: && 0 <= i < |w.conversations[c].messages|
                           && w.conversations[c].messages[i].role == User
                           && w.conversations[c].messages[i].body.Words?
                           && TitleText(w.conversations[c].title)
                              == Text.BuildTitle(w.conversations[c].messages[i].body.text)
  {
    ReachableInvariant(w);
    TitleTextFits(w.conversations[c].title);
    var conv := w.conversations[c];
    assert Asks(conv.messages, conv.title);
    if conv.title.TitleOf? {
      var i :| 0 <= i < |conv.messages| && conv.messages[i] == Message(User, Words(conv.title.question));
    }
  }

  /** An action belongs to the owner of its conversation, and a request holds rows of its own owner only. */
  lemma OwnersActOnTheirOwn(w: World)
    requires Reachable(w)
    ensures forall a :: a in w.actions ==>
              && w.actions[a].conversation in w.conversations
              && w.actions[a].owner == w.conversations[w.actions[a].conversation].owner
    ensures forall t :: t in w.txs && w.txs[t].row.Some? ==> w.txs[t].row.value.owner == w.txs[t].owner
  {
    ReachableInvariant(w);
    forall a | a in w.actions ensures BelongsTo(w.conversations, w.actions[a].conversation, w.actions[a].owner) {
    }
    forall t | t in w.txs && w.txs[t].row.Some? ensures w.txs[t].row.value.owner == w.txs[t].owner {
      RowIsOwn(w, t);
    }
  }

  lemma RowIsOwn(w: World, t: TxId)
    requires Safe(w) && Placed(w) && t in w.txs && w.txs[t].row.Some?
    ensures w.txs[t].row.value.owner == w.txs[t].owner
  {
    SafeTransactionFits(w, t);
    assert IsPlaced(w.conversations, w.txs[t]);
    if w.txs[t].action in w.actions {
      assert BelongsTo(w.conversations, w.actions[w.txs[t].action].conversation, w.actions[w.txs[t].action].owner);
    }
  }

  /** An answer to a confirmation or cancellation goes to a conversation of the request's owner. */
  lemma AnswersGoHome(w: World, t: TxId)
    requires Reachable(w) && t in w.txs && w.txs[t].pc.Notifying?
    ensures w.txs[t].conversation in w.conversations
    ensures w.conversations[w.txs[t].conversation].owner == w.txs[t].owner
  {
    ReachableInvariant(w);
    assert IsPlaced(w.conversations, w.txs[t]);
  }

  predicate InTurn(tx: Tx) {
    tx.pc.Preparing? || tx.pc.Running? || tx.pc.Proposing? || tx.pc.Inserting? || tx.pc.Completing?
  }

  /** Until its final commit a turn leaves every committed table as it is: going on, refused or crashing. */
  lemma TurnIsInvisibleUntilCommitted(w: World, e: Event)
    requires e.EPrepare? || e.ERunAgent? || e.EPropose? || e.EInsert? || e.ECrash?
    requires Reachable(w) && e.t in w.txs && InTurn(w.txs[e.t])
    ensures var v := Step(w, e);
            && v.actions == w.actions && v.audit == w.audit && v.conversations == w.conversations
            && v.writes == w.writes && v.orphans == w.orphans
  {
    ReachableInvariant(w);
    SafeTransactionFits(w, e.t);
    if !e.ECrash? {
      QuietEventIsQuiet(w, e);
    }
  }

  /** The conversation after a turn's commit; a deleted one keeps its continuation. */
  function Finished(conv: Conversation, tx: Tx): Conversation
    requires tx.pc.Completing?
  {
    conv.(title := if tx.title.Some? then tx.title.value else conv.title,
          messages := conv.messages + (tx.messages + [Message(Assistant, tx.pc.answer.answer)]),
          continuation := if conv.deleted then conv.continuation else StoreContinuation(tx.pc.answer.continuation))
  }

  lemma CompleteTurnFinishes(w: World, t: TxId)
    requires t in w.txs && w.txs[t].pc.Completing? && w.txs[t].conversation in w.conversations
    ensures CompleteTurn(w, t).conversations
            == w.conversations[w.txs[t].conversation := Finished(w.conversations[w.txs[t].conversation], w.txs[t])]
  {
  }

  /** The final commit lands everything at once: question, answer, title, continuation, action and audit. */
  lemma TurnCommitsTogether(w: World, t: TxId)
    requires Reachable(w) && t in w.txs && w.txs[t].pc.Completing?
    ensures var tx, v := w.txs[t], CompleteTurn(w, t);
            && tx.conversation in w.conversations && t !in v.txs
            && |tx.messages| == 1 && tx.messages[0].role == User
            && v.conversations
               == w.conversations[tx.conversation := Finished(w.conversations[tx.conversation], tx)]
            && (tx.pc.answer.proposal.None? ==> v.actions == w.actions && v.audit == w.audit)
            && (tx.pc.answer.proposal.Some? ==>
                  && tx.action !in w.actions
                  && v.actions == w.actions[
                       tx.action := NewAction(tx.owner, tx.conversation, tx.pc.answer.proposal.value)]
                  && v.audit == w.audit[tx.action := [WasProposed]])
  {
    ReachableInvariant(w);
    SafeTransactionFits(w, t);
    CompleteTurnSpeaks(w, t);
    CompleteTurnFinishes(w, t);
    CompleteTurnWrites(w, t);
  }

  /** The conversation exists, belongs to the owner, and has not been deleted. */
  predicate IsOpen(talks: Talks, c: ConversationId, owner: Owner) {
    c in talks && talks[c].owner == owner && !talks[c].deleted
  }

  /** The continuation the columns stand for: the three of a shipment selection for a route that may be continued. */
  function StoredIn(columns: ContinuationColumns): Option<Continuation> {
    match columns
    case ContinuationColumns(Some(ShipmentSelection), Some(route), Some(identifier)) =>
      if route in {GetShipment, SummarizeShipment, AnalyzeShipmentOperations}
      then Some(Continuation(route, identifier)) else None
    case _ => None
  }

  /**
   A turn starts exactly if its owner has no active action in the conversation; it goes on exactly if
   the conversation is open to the owner, and the client names no continuation, or none, or the stored one.
   */
  lemma TurnIsAcceptedExactlyWhen(w: World, t: TxId, owner: Owner, c: ConversationId, question: string,
                                  requested: Option<Option<Continuation>>)
    requires t !in w.txs
    ensures t in TurnStart(w, t, owner, c, question, requested).txs
            <==> forall a :: a in w.actions && w.actions[a].owner == owner && w.actions[a].conversation == c ==>
                   w.actions[a].status in {ActionStatus.Executed, ActionStatus.Failed, CancelledByUser}
    ensures t in TurnStart(w, t, owner, c, question, requested).txs ==>
              At(TurnStart(w, t, owner, c, question, requested), t, Preparing(question, requested))
    ensures t in TurnStart(w, t, owner, c, question, requested).txs ==>
              (t in Prepare(TurnStart(w, t, owner, c, question, requested), t).txs
               <==> && IsOpen(w.conversations, c, owner)
                    && (requested.None? || requested.value.None?
                        || requested.value == StoredIn(w.conversations[c].continuation)))
  {
    var v := TurnStart(w, t, owner, c, question, requested);
    if HasActiveOf(w.actions, owner, c) {
      var a :| a in w.actions && w.actions[a].owner == owner && w.actions[a].conversation == c
               && IsActive(w.actions[a]);
      assert v == w;
    } else {
      forall a | a in w.actions && w.actions[a].owner == owner && w.actions[a].conversation == c
        ensures w.actions[a].status in {ActionStatus.Executed, ActionStatus.Failed, CancelledByUser}
      {
        assert !IsActive(w.actions[a]);
      }
      PreparedExactlyWhen(v, t);
    }
  }

  lemma ColumnsAreRead(columns: ContinuationColumns)
    ensures BuildContinuation(columns) == StoredIn(columns)
  {
  }

  lemma PreparedExactlyWhen(w: World, t: TxId)
    requires t in w.txs && w.txs[t].pc.Preparing?
    ensures var tx := w.txs[t];
            t in Prepare(w, t).txs
            <==> && IsOpen(w.conversations, tx.conversation, tx.owner)
                 && (tx.pc.requested.None? || tx.pc.requested.value.None?
                     || tx.pc.requested.value == StoredIn(w.conversations[tx.conversation].continuation))
  {
    if w.txs[t].conversation in w.conversations {
      ColumnsAreRead(w.conversations[w.txs[t].conversation].continuation);
    }
  }

  /** A turn runs with no continuation or with the stored one, never with one the client made up. */
  lemma TurnRunsWithStoredContinuation(w: World, t: TxId)
    requires t in w.txs && w.txs[t].pc.Preparing? && t in Prepare(w, t).txs
    ensures IsOpen(w.conversations, w.txs[t].conversation, w.txs[t].owner)
    ensures Prepare(w, t).txs[t].pc
            == Running(w.txs[t].pc.question,
                       if w.txs[t].pc.requested == Some(None) then None
                       else StoredIn(w.conversations[w.txs[t].conversation].continuation))
  {
    ColumnsAreRead(w.conversations[w.txs[t].conversation].continuation);
  }

  lemma CompleteTurnStoresContinuation(w: World, t: TxId)
    requires Known(w, t) && t in w.txs && w.txs[t].pc.Completing?
    requires w.txs[t].conversation in w.conversations && !w.conversations[w.txs[t].conversation].deleted
    ensures StoredIn(CompleteTurn(w, t).conversations[w.txs[t].conversation].continuation)
            == w.txs[t].pc.answer.continuation
  {
    ContinuationRoundTrip(w.txs[t].pc.answer.continuation);
    ColumnsAreRead(StoreContinuation(w.txs[t].pc.answer.continuation));
  }

  /** The step commits a turn or an answer in conversation `c`, and with it a continuation. */
  predicate SetsContinuation(w: World, e: Event, c: ConversationId) {
    && (e.ECompleteTurn? || e.ENotify?)
    && e.t in w.txs && w.txs[e.t].conversation == c
    && (e.ECompleteTurn? ==> w.txs[e.t].pc.Completing?) && (e.ENotify? ==> w.txs[e.t].pc.Notifying?)
  }

  /** Nothing in the run commits a turn or an answer in conversation `c`. */
  ghost predicate LeavesContinuation(w: World, events: seq<Event>, c: ConversationId) {
    forall i :: 0 <= i < |events| ==> !SetsContinuation(Run(w, events[..i]), events[i], c)
  }

  predicate SameContinuation(talks: Talks, talks': Talks, c: ConversationId) {
    c in talks ==>
      && c in talks' && talks'[c].continuation == talks[c].continuation
      && (talks[c].deleted ==> talks'[c].deleted)
  }

  lemma CompletionLeavesContinuation(w: World, t: TxId, c: ConversationId)
    requires Safe(w) && !SetsContinuation(w, ECompleteTurn(t), c)
    ensures SameContinuation(w.conversations, CompleteTurn(w, t).conversations, c)
  {
    SafeTransactionFits(w, t);
    if t in w.txs && w.txs[t].pc.Completing? {
      CompleteTurnSpeaks(w, t);
    }
  }

  lemma AnswerLeavesContinuation(w: World, t: TxId, c: ConversationId)
    requires !SetsContinuation(w, ENotify(t), c)
    ensures SameContinuation(w.conversations, Notify(w, t).conversations, c)
  {
  }

  lemma SpeakingLeavesContinuation(w: World, e: Event, c: ConversationId)
    requires Safe(w) && Speaks(e) && !SetsContinuation(w, e, c)
    ensures SameContinuation(w.conversations, Step(w, e).conversations, c)
  {
    match e
    case ENotify(t) => AnswerLeavesContinuation(w, t, c);
    case ECompleteTurn(t) => CompletionLeavesContinuation(w, t, c);
    case ECreateConversation(_, _) =>
    case EDeleteConversation(_) =>
  }

  lemma StepLeavesContinuation(w: World, e: Event, c: ConversationId)
    requires Safe(w) && !SetsContinuation(w, e, c)
    ensures SameContinuation(w.conversations, Step(w, e).conversations, c)
  {
    if Speaks(e) {
      SpeakingLeavesContinuation(w, e, c);
    } else {
      StepIsSilent(w, e);
    }
  }

  lemma {:induction false} RunLeavesContinuation(w: World, events: seq<Event>, c: ConversationId)
    requires Reachable(w) && LeavesContinuation(w, events, c)
    ensures SameContinuation(w.conversations, Run(w, events).conversations, c)
  {
    if events != [] {
      var n := |events| - 1;
      var front := events[..n];
      forall i | 0 <= i < n ensures !SetsContinuation(Run(w, front[..i]), front[i], c) {
        assert front[..i] == events[..i] && front[i] == events[i];
      }
      RunLeavesContinuation(w, front, c);
      ReachableRun(w, front);
      ReachableInvariant(Run(w, front));
      assert !SetsContinuation(Run(w, events[..n]), events[n], c);
      StepLeavesContinuation(Run(w, front), events[n], c);
    }
  }

  lemma StepIsCompletion(w: World, t: TxId)
    ensures Step(w, ECompleteTurn(t)) == CompleteTurn(w, t)
  {
  }

  lemma CompletingKeepsDeleted(w: World, t: TxId)
    requires t in w.txs && w.txs[t].pc.Completing? && w.txs[t].conversation in w.conversations
    ensures w.txs[t].conversation in CompleteTurn(w, t).conversations
    ensures CompleteTurn(w, t).conversations[w.txs[t].conversation].deleted
            == w.conversations[w.txs[t].conversation].deleted
  {
  }

  /** Request `u` is a turn of the open conversation that names the continuation, or leaves the choice open. */
  predicate Follows(w: World, u: TxId, c: ConversationId, continuation: Option<Continuation>) {
    && u in w.txs && w.txs[u].pc.Preparing? && w.txs[u].conversation == c
    && IsOpen(w.conversations, c, w.txs[u].owner)
    && (w.txs[u].pc.requested == None || w.txs[u].pc.requested == Some(continuation))
  }

  /**
   The continuation a turn commits is the one the next turn of the conversation runs with: whatever else happens after
   the commit, as long as no other turn and no answer commits there in between. The next turn is accepted when its
   client names that continuation, or leaves the choice open, and the conversation is still open.
   */
  lemma ClarificationIsResumed(w: World, t: TxId, events: seq<Event>, u: TxId)
    requires Reachable(w) && t in w.txs && w.txs[t].pc.Completing?
    requires LeavesContinuation(CompleteTurn(w, t), events, w.txs[t].conversation)
    requires Follows(Run(CompleteTurn(w, t), events), u, w.txs[t].conversation, w.txs[t].pc.answer.continuation)
    ensures var v := Run(CompleteTurn(w, t), events);
            u in Prepare(v, u).txs
            && Prepare(v, u).txs[u].pc == Running(v.txs[u].pc.question, w.txs[t].pc.answer.continuation)
  {
    ReachableInvariant(w);
    SafeTransactionFits(w, t);
    var c, done := w.txs[t].conversation, CompleteTurn(w, t);
    ReachableStep(w, ECompleteTurn(t));
    StepIsCompletion(w, t);
    CompletingKeepsDeleted(w, t);
    RunLeavesContinuation(done, events, c);
    CompleteTurnStoresContinuation(w, t);
    PreparedExactlyWhen(Run(done, events), u);
    TurnRunsWithStoredContinuation(Run(done, events), u);
  }
}
