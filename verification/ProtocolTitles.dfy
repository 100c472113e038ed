/** Titles over whole runs: every stored title is the default one or that of a question of its conversation. */
module ProtocolTitles {
  import opened Prelude
  import opened Authorization
  import opened Shipments
  import opened Actions
  import opened Conversations
  import opened Protocol
  import opened ProtocolInvariant
  import opened ProtocolSafety
  import opened ProtocolHistory
  import opened ProtocolTalk
  import opened ProtocolOwnership
  import Text

  /** A title comes with the question it is built from. */
  predicate Asks(messages: seq<Message>, title: Title) {
    title.TitleOf? ==> Message(User, Words(title.question)) in messages
  }

  predicate IsTitled(tx: Tx) {
    tx.title.Some? ==> Asks(tx.messages, tx.title.value)
  }

  ghost predicate Titled(w: World) {
    && (forall c :: c in w.conversations ==> Asks(w.conversations[c].messages, w.conversations[c].title))
    && (forall t :: t in w.txs ==> IsTitled(w.txs[t]))
  }

  /** A title of any conversation fits its column. */
  lemma TitleTextFits(title: Title)
    ensures |TitleText(title)| <= Text.MAX_TITLE_LENGTH
  {
    if title.TitleOf? {
      Text.TitleFits(title.question);
    }
  }

  // ---- requests ----

  lemma NewRequestsAreUntitled(w: World, e: Event)
    requires IsStart(e)
    ensures var txs := Step(w, e).txs;
            forall t :: t in txs ==> (t in w.txs && txs[t] == w.txs[t]) || txs[t].title.None?
  {
  }

  lemma PreparedIsTitled(w: World, t: TxId)
    ensures var txs := Prepare(w, t).txs;
            forall u :: u in txs ==> (u in w.txs && txs[u] == w.txs[u]) || IsTitled(txs[u])
  {
    if t in w.txs && w.txs[t].pc.Preparing? && w.txs[t].conversation in w.conversations {
      var conv := w.conversations[w.txs[t].conversation];
      forall continuation ensures IsTitled(PreparedTx(w.txs[t], conv, w.txs[t].pc.question, continuation)) {
        QuestionIsTitled(w.txs[t], conv, w.txs[t].pc.question, continuation);
      }
    }
  }

  lemma QuestionIsTitled(tx: Tx, conv: Conversation, question: string, continuation: Option<Continuation>)
    ensures IsTitled(PreparedTx(tx, conv, question, continuation))
  {
  }

  lemma StayingIsTitled(w: World, t: TxId, v: World)
    requires StaysPut(w, t, v) && forall u :: u in w.txs ==> IsTitled(w.txs[u])
    ensures forall u :: u in v.txs ==> IsTitled(v.txs[u])
  {
  }

  lemma StepKeepsRequestsTitled(w: World, e: Event)
    requires forall t :: t in w.txs ==> IsTitled(w.txs[t])
    ensures forall t :: t in Step(w, e).txs ==> IsTitled(Step(w, e).txs[t])
  {
    if IsStart(e) {
      NewRequestsAreUntitled(w, e);
    } else if e.EPrepare? {
      PreparedIsTitled(w, e.t);
    } else if IsConfirmationStep(e) {
      ConfirmationStays(w, e);
      StayingIsTitled(w, e.t, Step(w, e));
    } else if IsTurnStep(e) {
      TurnStays(w, e);
      StayingIsTitled(w, e.t, Step(w, e));
    } else {
      EditMovesNothing(w, e);
    }
  }

  // ---- conversations ----

  /** Committing keeps a title, or sets it together with its question. */
  lemma CommitKeepsTitled(w: World, c: ConversationId, title: Option<Title>, messages: seq<Message>,
                          continuation: Option<Continuation>)
    requires c in w.conversations ==> Asks(w.conversations[c].messages, w.conversations[c].title)
    requires title.Some? ==> Asks(messages, title.value)
    ensures var v := CommitTurn(w, c, title, messages, continuation);
            && v.conversations.Keys == w.conversations.Keys
            && (c in v.conversations ==> Asks(v.conversations[c].messages, v.conversations[c].title))
            && (forall d :: d in w.conversations && d != c ==> v.conversations[d] == w.conversations[d])
  {
  }

  lemma NotifyKeepsTitled(w: World, t: TxId)
    requires Titled(w)
    ensures forall c :: c in Notify(w, t).conversations ==>
              Asks(Notify(w, t).conversations[c].messages, Notify(w, t).conversations[c].title)
  {
    if t in w.txs && w.txs[t].pc.Notifying? {
      CommitKeepsTitled(w, w.txs[t].conversation, None, [Message(Assistant, w.txs[t].pc.body)], None);
    }
  }

  lemma CompletionKeepsTitled(w: World, t: TxId)
    requires Titled(w)
    ensures forall c :: c in CompleteTurn(w, t).conversations ==>
              Asks(CompleteTurn(w, t).conversations[c].messages, CompleteTurn(w, t).conversations[c].title)
  {
    if t in w.txs && w.txs[t].pc.Completing? {
      var tx := w.txs[t];
      assert IsTitled(tx);
      var rows := CommitRow(w, tx);
      var known := if tx.row.Some? then rows.(proposedWith := rows.proposedWith[tx.action := tx.granted]) else rows;
      assert known.conversations == w.conversations;
      CommitKeepsTitled(known, tx.conversation, tx.title,
                        tx.messages + [Message(Assistant, tx.pc.answer.answer)], tx.pc.answer.continuation);
    }
  }

  lemma SpeakingKeepsTitled(w: World, e: Event)
    requires Titled(w) && Speaks(e)
    ensures forall c :: c in Step(w, e).conversations ==>
              Asks(Step(w, e).conversations[c].messages, Step(w, e).conversations[c].title)
  {
    match e
    case ENotify(t) => NotifyKeepsTitled(w, t);
    case ECompleteTurn(t) => CompletionKeepsTitled(w, t);
    case ECreateConversation(_, _) =>
    case EDeleteConversation(_) =>
  }

  lemma StepKeepsTitled(w: World, e: Event)
    requires Safe(w) && Titled(w)
    ensures Titled(Step(w, e))
  {
    StepKeepsRequestsTitled(w, e);
    if Speaks(e) {
      SpeakingKeepsTitled(w, e);
    } else {
      StepIsSilent(w, e);
    }
  }
}
