/** A turn whose agent is the graph itself. */
module AgentTurns {
  import opened Prelude
  import opened Authorization
  import opened Conversations
  import opened Actions
  import P = Protocol
  import Graph = AgentGraph
  import Meaning = AgentMeaning
  import Theorems = AgentTheorems
  import Spec = RequestSpec
  import Requests = RequestTheorems
  import Runs = ProtocolTheorems
  import Planner
  import Text

  /** The services a run meets, which may depend on the conversation's recent messages. */
  type Surroundings = seq<Message> -> Graph.Services

  /** The graph as the turn's agent: anything but a finished run raises. */
  function AgentRun(around: Surroundings, question: string)
    : (Option<Continuation>, seq<Message>) -> Option<P.AgentResult>
  {
    (continuation, recent) =>
      match Graph.Execute(around(recent), question, continuation)
      case Finished(result) => Some(result)
      case _ => None
  }

  lemma StoredAnswersAreBacked(tables: Spec.Tables, owner: Owner, c: ConversationId, question: string,
                               requested: Option<Option<Continuation>>, around: Surroundings, granted: set<Permission>)
    requires forall recent :: around(recent).granted == granted
    ensures var answer := Requests.AnswerTo(tables, owner, c, requested, AgentRun(around, question));
            answer.Some? ==> P.Backed(answer.value, granted)
  {
    var answer := Requests.AnswerTo(tables, owner, c, requested, AgentRun(around, question));
    if answer.Some? {
      var conv := tables.conversations[c];
      var continuation := P.ChooseContinuation(requested, BuildContinuation(conv.continuation)).value;
      var svc := around(Spec.Recent(conv.messages, MAX_CONTEXT_MESSAGES));
      assert Graph.Execute(svc, question, continuation) == Graph.Finished(answer.value);
      Theorems.ResultsAreBacked(svc, question, continuation);
    }
  }

  /**
   Whatever the services answer, an undisturbed turn of the agent graph is a run of the protocol: what the protocol
   takes for granted about agent results holds of the graph.
   */
  lemma AgentTurnFollowsProtocol(w: P.World, t: P.TxId, owner: Owner, c: ConversationId, question: string,
                                 requested: Option<Option<Continuation>>, around: Surroundings,
                                 granted: set<Permission>, id: ActionId)
    requires t !in w.txs && !P.RowLocked(w.txs, t, id) && !P.SlotLocked(w.txs, t, c)
    requires forall recent :: around(recent).granted == granted
    ensures var run := AgentRun(around, question);
            var answer := Requests.AnswerTo(Requests.TablesOf(w), owner, c, requested, run);
            && (answer.Some? ==> P.Backed(answer.value, granted))
            && Requests.TablesOf(P.Run(w, Requests.TurnEvents(t, owner, c, question, requested, granted, answer, id)))
               == Spec.TurnOf(Requests.TablesOf(w), owner, c, question, requested, run, id).tables
  {
    StoredAnswersAreBacked(Requests.TablesOf(w), owner, c, question, requested, around, granted);
    Requests.TurnFollowsProtocol(w, t, owner, c, question, requested, granted, AgentRun(around, question), id);
  }

  /**
   Two-turn clarification, end to end. The graph asks back and its turn is committed; then the next turn of the
   conversation, whatever happened elsewhere in between, runs with the continuation that was asked for: without the
   planner, and, unless its question is blank, on the very route that asked, proposing nothing.
   */
  lemma ClarificationResumesTheRoute(w: P.World, t: P.TxId, events: seq<P.Event>, u: P.TxId, svc: Graph.Services,
                                     question: string, continuation: Option<Continuation>, later: Graph.Services)
    requires P.Reachable(w) && t in w.txs && w.txs[t].pc.Completing?
    requires Meaning.Continuable(continuation)
    requires Graph.Execute(svc, question, continuation) == Graph.Finished(w.txs[t].pc.answer)
    requires w.txs[t].pc.answer.continuation.Some?
    requires Runs.LeavesContinuation(P.CompleteTurn(w, t), events, w.txs[t].conversation)
    requires Runs.Follows(P.Run(P.CompleteTurn(w, t), events), u, w.txs[t].conversation,
                          w.txs[t].pc.answer.continuation)
    ensures var v := P.Run(P.CompleteTurn(w, t), events);
            var reply, asked := v.txs[u].pc.question, w.txs[t].pc.answer.continuation;
            && u in P.Prepare(v, u).txs && P.Prepare(v, u).txs[u].pc == P.Running(reply, asked)
            && IsContinuationRoute(asked.value.route) && Resumes(svc, question, continuation, later, reply, asked)
  {
    Runs.ClarificationIsResumed(w, t, events, u);
    var v := P.Run(P.CompleteTurn(w, t), events);
    ResumptionHolds(svc, question, continuation, later, v.txs[u].pc.question, w.txs[t].pc.answer.continuation);
  }

  /** Replying to what a run asked carries out its route on the reply, without the planner. */
  predicate Resumes(svc: Graph.Services, question: string, continuation: Option<Continuation>, later: Graph.Services,
                    reply: string, asked: Option<Continuation>)
    requires asked.Some? && IsContinuationRoute(asked.value.route)
  {
    && Graph.Plan !in Graph.Path(later, reply, asked)
    && (Text.Strip(reply) != "" ==>
          && Graph.Execute(later, reply, asked)
             == Meaning.Reply(later, reply,
                              Planner.Decision(asked.value.route, Some(Text.Strip(reply)), [], None, None))
          && Meaning.Intent(svc, question, continuation).Some?
          && asked.value.route == Meaning.Intent(svc, question, continuation).value.route
          && Graph.Execute(later, reply, asked) != Graph.GuardTripped
          && (Graph.Execute(later, reply, asked).Finished? ==>
                Graph.Execute(later, reply, asked).result.proposal.None?))
  }

  lemma ResumptionHolds(svc: Graph.Services, question: string, continuation: Option<Continuation>,
                        later: Graph.Services, reply: string, asked: Option<Continuation>)
    requires Meaning.Continuable(continuation) && Graph.Execute(svc, question, continuation).Finished?
    requires asked.Some? && asked == Graph.Execute(svc, question, continuation).result.continuation
    ensures IsContinuationRoute(asked.value.route)
    ensures Resumes(svc, question, continuation, later, reply, asked)
  {
    Theorems.PlansExactlyWhenFresh(later, reply, asked);
    Theorems.AsksBackExactlyWhenAmbiguous(svc, question, continuation);
    if Text.Strip(reply) != "" {
      Theorems.StripsToNothing(reply);
      Theorems.ContinuedRunsCarryOutTheRoute(later, reply, asked.value);
      Theorems.ReplyResumesTheRoute(svc, question, continuation, later, reply);
    }
  }
}
