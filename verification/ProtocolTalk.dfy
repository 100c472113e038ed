/** Conversations over whole runs: every question is answered, every action was announced where it was asked for. */
module ProtocolTalk {
  import opened Prelude
  import opened Authorization
  import opened Shipments
  import opened Actions
  import opened Conversations
  import opened Protocol
  import opened ProtocolInvariant
  import opened ProtocolSafety
  import opened ProtocolHistory
  import opened ProtocolAttempts

  type Talks = map<ConversationId, Conversation>

  /** No question without an answer. */
  predicate Answered(messages: seq<Message>) {
    CountRole(messages, User) <= CountRole(messages, Assistant)
  }

  /** The proposal was requested by a user message and announced by the assistant message after it. */
  ghost predicate Announces(messages: seq<Message>, p: Proposal) {
    exists i :: 0 <= i < |messages| - 1 && messages[i].role == User
                && messages[i + 1] == Message(Assistant, ConfirmationRequest(p.summary))
  }

  ghost predicate AllAnswered(talks: Talks) {
    forall c :: c in talks ==> Answered(talks[c].messages)
  }

  ghost predicate AllAnnounced(rows: Rows, talks: Talks) {
    forall a :: a in rows ==>
      rows[a].conversation in talks && Announces(talks[rows[a].conversation].messages, rows[a].proposal)
  }

  ghost predicate Talking(w: World) {
    AllAnswered(w.conversations) && AllAnnounced(w.actions, w.conversations)
  }

  lemma AppendKeepsAnnounced(messages: seq<Message>, more: seq<Message>, p: Proposal)
    requires Announces(messages, p)
    ensures Announces(messages + more, p)
  {
    var i :| 0 <= i < |messages| - 1 && messages[i].role == User
             && messages[i + 1] == Message(Assistant, ConfirmationRequest(p.summary));
    var all := messages + more;
    assert all[i] == messages[i] && all[i + 1] == messages[i + 1];
  }

  lemma AnswerKeepsAnswered(messages: seq<Message>, body: Body)
    requires Answered(messages)
    ensures Answered(messages + [Message(Assistant, body)])
  {
    CountRoleConcat(messages, [Message(Assistant, body)], User);
    CountRoleConcat(messages, [Message(Assistant, body)], Assistant);
  }

  lemma TurnKeepsAnswered(messages: seq<Message>, question: Message, body: Body)
    requires Answered(messages) && question.role == User
    ensures Answered(messages + [question] + [Message(Assistant, body)])
  {
    CountRoleConcat(messages, [question], User);
    CountRoleConcat(messages, [question], Assistant);
    CountRoleConcat(messages + [question], [Message(Assistant, body)], User);
    CountRoleConcat(messages + [question], [Message(Assistant, body)], Assistant);
  }

  /** Only conversation `c` changes, and only by growing. */
  ghost predicate Grows(talks: Talks, talks': Talks, c: ConversationId, more: seq<Message>) {
    && talks'.Keys == talks.Keys
    && (forall d :: d in talks && d != c ==> talks'[d] == talks[d])
    && (c in talks ==> talks'[c].messages == talks[c].messages + more)
  }

  lemma GrowthKeepsAnnounced(rows: Rows, talks: Talks, talks': Talks, c: ConversationId, more: seq<Message>)
    requires AllAnnounced(rows, talks) && Grows(talks, talks', c, more)
    ensures AllAnnounced(rows, talks')
  {
    forall a | a in rows
      ensures rows[a].conversation in talks' && Announces(talks'[rows[a].conversation].messages, rows[a].proposal)
    {
      assert Announces(talks[rows[a].conversation].messages, rows[a].proposal);
      if rows[a].conversation == c {
        AppendKeepsAnnounced(talks[c].messages, more, rows[a].proposal);
      }
    }
  }

  lemma GrowthKeepsAnswered(talks: Talks, talks': Talks, c: ConversationId, more: seq<Message>)
    requires AllAnswered(talks) && Grows(talks, talks', c, more)
    requires c in talks ==> Answered(talks'[c].messages)
    ensures AllAnswered(talks')
  {
  }

  /** One conversation grows; the rows stay. */
  lemma GrowthKeepsTalking(w: World, v: World, c: ConversationId, more: seq<Message>)
    requires Talking(w) && v.actions == w.actions && Grows(w.conversations, v.conversations, c, more)
    requires c in w.conversations ==> Answered(v.conversations[c].messages)
    ensures Talking(v)
  {
    GrowthKeepsAnnounced(w.actions, w.conversations, v.conversations, c, more);
    GrowthKeepsAnswered(w.conversations, v.conversations, c, more);
  }

  lemma NotifyKeepsTalking(w: World, t: TxId)
    requires Talking(w)
    ensures Talking(Notify(w, t))
  {
    if t in w.txs && w.txs[t].pc.Notifying? {
      var c, body := w.txs[t].conversation, w.txs[t].pc.body;
      if c in w.conversations {
        AnswerKeepsAnswered(w.conversations[c].messages, body);
      }
      GrowthKeepsTalking(w, Notify(w, t), c, [Message(Assistant, body)]);
    }
  }

  /** The messages a finished turn leaves: the question, directly followed by the answer. */
  lemma CompleteTurnSpeaks(w: World, t: TxId)
    requires Known(w, t) && t in w.txs && w.txs[t].pc.Completing?
    ensures var tx, v := w.txs[t], CompleteTurn(w, t);
            && tx.conversation in w.conversations && |tx.messages| == 1 && tx.messages[0].role == User
            && Grows(w.conversations, v.conversations, tx.conversation,
                     tx.messages + [Message(Assistant, tx.pc.answer.answer)])
  {
  }

  lemma CompleteTurnKeepsTalking(w: World, t: TxId)
    requires Talking(w) && Known(w, t) && w.audit.Keys == w.actions.Keys
    ensures Talking(CompleteTurn(w, t))
  {
    if t in w.txs && w.txs[t].pc.Completing? {
      CompleteTurnSpeaks(w, t);
      CompleteTurnWrites(w, t);
      FinishedTurnKeepsTalking(w.actions, w.conversations, CompleteTurn(w, t).conversations, w.txs[t],
                               CompleteTurn(w, t).actions);
    }
  }

  lemma FinishedTurnKeepsTalking(rows: Rows, talks: Talks, talks': Talks, tx: Tx, rows': Rows)
    requires AllAnswered(talks) && AllAnnounced(rows, talks) && tx.pc.Completing?
    requires tx.conversation in talks && |tx.messages| == 1 && tx.messages[0].role == User
    requires Grows(talks, talks', tx.conversation, tx.messages + [Message(Assistant, tx.pc.answer.answer)])
    requires rows' == if tx.row.None? then rows else rows[tx.action := tx.row.value]
    requires tx.row.Some? ==>
               && tx.row.value.conversation == tx.conversation
               && tx.pc.answer.answer == ConfirmationRequest(tx.row.value.proposal.summary)
    ensures AllAnswered(talks') && AllAnnounced(rows', talks')
  {
    var c, answer := tx.conversation, Message(Assistant, tx.pc.answer.answer);
    var before := talks[c].messages;
    assert before + (tx.messages + [answer]) == before + [tx.messages[0]] + [answer];
    TurnKeepsAnswered(before, tx.messages[0], tx.pc.answer.answer);
    GrowthKeepsAnswered(talks, talks', c, tx.messages + [answer]);
    GrowthKeepsAnnounced(rows, talks, talks', c, tx.messages + [answer]);
    if tx.row.Some? {
      AnnouncedAtTheEnd(before, tx.messages[0], answer, tx.row.value.proposal);
      NewRowIsAnnounced(rows, talks', tx.action, tx.row.value);
    }
  }

  lemma NewRowIsAnnounced(rows: Rows, talks: Talks, a: ActionId, row: Action)
    requires AllAnnounced(rows, talks) && row.conversation in talks
    requires Announces(talks[row.conversation].messages, row.proposal)
    ensures AllAnnounced(rows[a := row], talks)
  {
  }

  lemma AnnouncedAtTheEnd(before: seq<Message>, question: Message, answer: Message, p: Proposal)
    requires question.role == User && answer == Message(Assistant, ConfirmationRequest(p.summary))
    ensures Announces(before + [question] + [answer], p)
  {
    var all := before + [question] + [answer];
    assert all[|before|] == question && all[|before| + 1] == answer;
  }

  lemma CreateKeepsTalking(w: World, c: ConversationId, owner: Owner)
    requires Talking(w)
    ensures Talking(CreateConversation(w, c, owner))
  {
  }

  lemma DeleteKeepsTalking(w: World, c: ConversationId)
    requires Talking(w)
    ensures Talking(DeleteConversation(w, c))
  {
    if c in w.conversations {
      var messages := w.conversations[c].messages;
      assert messages + [] == messages;
      GrowthKeepsTalking(w, DeleteConversation(w, c), c, []);
    }
  }

  predicate Speaks(e: Event) {
    e.ENotify? || e.ECompleteTurn? || e.ECreateConversation? || e.EDeleteConversation?
  }

  lemma WriteIsSilent(w: World, e: Event)
    requires e.EStatusWrite? || e.EUpdateShipment? || e.ECreateShipment?
    ensures Step(w, e).conversations == w.conversations
  {
  }

  lemma StepIsSilent(w: World, e: Event)
    requires Safe(w) && !Speaks(e)
    ensures Step(w, e).conversations == w.conversations
  {
    if e.EStatusWrite? || e.EUpdateShipment? || e.ECreateShipment? {
      WriteIsSilent(w, e);
    } else {
      SafeTransactionFits(w, e.t);
      if IsQuietEvent(e) {
        QuietEventIsQuiet(w, e);
      } else {
        match e
        case EReadShipment(t, at) => ReadShipmentChecks(w, t, at);
        case EUseCaseWrite(t) => UseCaseWriteMovesTx(w, t);
        case ECommitOutcome(t) => if t in w.txs && w.txs[t].pc.Committing? { CommitOutcomeWrites(w, t); }
        case ECrash(t) =>
      }
    }
  }

  lemma SilentKeepsTalking(w: World, v: World)
    requires Talking(w) && v.conversations == w.conversations
    requires KeepsRequests(w.actions, v.actions)
    ensures Talking(v)
  {
  }

  ghost predicate KeepsRequests(rows: Rows, rows': Rows) {
    forall a :: a in rows' ==> a in rows && SameRequest(rows'[a], rows[a])
  }

  lemma OutcomeKeepsRequests(w: World, t: TxId)
    requires Safe(w)
    ensures KeepsRequests(w.actions, CommitOutcome(w, t).actions)
  {
    SafeTransactionFits(w, t);
    if t in w.txs && w.txs[t].pc.Committing? {
      CommitOutcomeWrites(w, t);
      UpdateKeepsRequests(w.actions, w.txs[t].action, w.txs[t].row.value);
    }
  }

  lemma UpdateKeepsRequests(rows: Rows, a: ActionId, row: Action)
    requires a in rows && SameRequest(row, rows[a])
    ensures KeepsRequests(rows, rows[a := row])
  {
  }

  lemma SilentStepKeepsRequests(w: World, e: Event)
    requires Safe(w) && !Speaks(e)
    ensures KeepsRequests(w.actions, Step(w, e).actions)
  {
    match e
    case ECommitOutcome(t) => OutcomeKeepsRequests(w, t);
    case _ => OtherStepKeepsRows(w, e);
  }

  lemma StepKeepsTalking(w: World, e: Event)
    requires Safe(w) && Talking(w)
    ensures Talking(Step(w, e))
  {
    if Speaks(e) {
      SpeakingStepKeepsTalking(w, e);
    } else {
      StepIsSilent(w, e);
      SilentStepKeepsRequests(w, e);
      SilentKeepsTalking(w, Step(w, e));
    }
  }

  lemma SpeakingStepKeepsTalking(w: World, e: Event)
    requires Safe(w) && Talking(w) && Speaks(e)
    ensures Talking(Step(w, e))
  {
    match e
    case ENotify(t) => NotifyKeepsTalking(w, t);
    case ECompleteTurn(t) =>
      SafeTransactionFits(w, t);
      CompleteTurnKeepsTalking(w, t);
    case ECreateConversation(c, owner) => CreateKeepsTalking(w, c, owner);
    case EDeleteConversation(c) => DeleteKeepsTalking(w, c);
  }
}
