# NovaScale AI: a verified model

This project models the AI assistant of the NovaScale logistics backend in Dafny and proves what its code promises.
The core is the confirm-before-execute protocol: the agent proposes a write on a shipment, the proposal is stored
with the conversation turn that asked for it, and a later request confirms it, changes the shipment in one
transaction and the action row in another. Around it are the agent graph and its planner, the timeline analysis,
retrieval and the chunk index, and the arithmetic of money, journals and delivery retries.

`dafny verify dfyconfig.toml` checks everything. The modules, bottom up:

- `Text`, `Authorization`, `Shipments`, `Actions`, `Conversations`: the values, and the pure parts of the services.
- `Protocol`: all requests as one step system over the committed tables, the open transactions with their uncommitted
  rows and row locks, other writers of shipments, and a crash between any two steps. `ProtocolInvariant` and
  `ProtocolSafety` hold the invariant and its preservation, `ProtocolHistory`, `ProtocolAttempts`,
  `ProtocolFreshness`, `ProtocolTalk`, `ProtocolOwnership` and `ProtocolTitles` what holds of effects and conversations
  over whole runs, and `ProtocolTheorems` the results. `ProtocolExamples` are concrete runs at the edge of the
  guarantees.
- `RequestSpec`, `Requests`, `RequestTheorems`: the repositories, services and routes as classes over a shared session,
  each method proved against a one-step specification, and the proof that one undisturbed request is a run of the
  protocol.
- `Planner`, `AgentGraph`, `AgentMeaning`, `AgentTheorems`, `AgentTurns`: the parser of model output, the graph with its
  guards, what a run means without the graph, and the agent as the answer of a protocol turn.
- `TimeOrder`, `Timeline`, `TimelineTheorems`: stable sorting, the six detectors and the risk.
- `Retrieval`, `VectorIndex`, `Rounding`, `Money`, `Ledger`, `Notifications`.

## Assumptions

- The audit use case only adds its record to the session it is given (app/ai/application/dependencies.py:194-196), so an
  action row and its audit events commit together.
- The shipment use cases read, write and commit in a transaction of their own, without a row lock or a version check
  (app/modules/shipments/application/use_cases/transition_shipment_status.py:41-118).
- The database is PostgreSQL at READ COMMITTED: an UPDATE waits for the row lock and then tests its WHERE clause against
  the committed row; an INSERT waits while another transaction's entry in a unique index is undecided.
- A commit either happens or does not; a request that raises or dies loses what it has not committed.
- Model, embedding and database answers are arbitrary functions of the request. Within one agent run the same lookup
  gives the same answer.

## What the proofs found

- An executed action has taken effect at least once. It has taken effect exactly once if and only if no attempt died
  between the shipment commit and the action commit; and then an action reported as failed or cancelled has had no
  effect. `ProtocolExamples.FailedActionMayHaveTakenEffect` reaches a committed `failed` row whose transition happened.
- After such a crash a transition is not repeated, because its expected status lies behind it, unless another request
  writes a status it decided on from an outdated read. There are never more than one effect and one more for each such
  write to the shipment; `ProtocolExamples.StaleWriteAllowsSecondEffect` is a run that reaches the bound. What decides
  each single confirmation is whether the shipment stands as the proposal expects, which can be checked beforehand.
- The branches for a stored `executing` row are never taken in a committed state.
- Of the guards of the agent runtime one can trip: a continued conversation whose next question is all whitespace. A
  question must only have one character (app/api/routes/ai.py:102-106), and blanks count.
- The primary key of a chunk holds the document id and the index, but not the tenant. Two tenants that ingest a document
  under the same id collide; `VectorIndex.IngestSucceedsExactlyWhenUntaken` is the exact condition.

## Model

| member | source | states |
|---|---|---|
| ProtocolTheorems.CommittedRowsAtRest | app/ai/application/services/agent_action_service.py:100-205 | in every reachable committed state no row is `executing`, its columns and its audit trail are the ones its status demands, and a conversation has at most one active action |
| ProtocolTheorems.ClaimHolderIsUnique | app/ai/infrastructure/actions/repository.py:112-178 | at most one request is between claim and commit of an action, and its guarded updates to executed or failed always match, so their errors are unreachable |
| ProtocolTheorems.SettledForever | app/ai/infrastructure/actions/repository.py:112-246 | over any continuation of a run, an action keeps its request, and executed, failed and cancelled rows never change |
| ProtocolTheorems.EffectsAreConserved | app/ai/application/services/agent_action_service.py:165-205 | shipment writes of an action = one if executed, plus its orphaned attempts, plus an outstanding commit |
| ProtocolTheorems.ExactlyOnceUnlessOrphaned | app/ai/application/services/agent_action_service.py:165-205 | an executed action took effect at least once, and exactly once iff no attempt was orphaned; a failed or cancelled one did so iff one was |
| ProtocolTheorems.RepeatedEffectsWereRestored | app/ai/application/services/agent_action_service.py:278-334 | between two effects of one action another writer restored the status or notes the action expects |
| ProtocolTheorems.ProceedsExactlyWhenExpected | app/ai/application/services/agent_action_service.py:262-334 | a claimed action goes on to its use case iff the shipment is as the proposal expects, and is marked failed otherwise |
| ProtocolTheorems.RetryNeedsRestoration | app/ai/application/services/agent_action_service.py:278-334 | an action that took effect finds its expectation met again only if another writer restored it since |
| ProtocolTheorems.TransitionTakesEffectAtMostOnce | app/ai/application/services/agent_action_service.py:278-305 | over every interleaving, retry and crash a transition takes effect at most once more than other writers set its shipment's status on an outdated read; if none did, at most once, and exactly once when executed |
| RequestTheorems.ConfirmationTakesEffectExactlyWhenExpected | app/ai/application/services/agent_action_service.py:278-334 | in every reachable state an undisturbed, permitted confirmation of a pending action gives the shipment the proposed status or notes and changes nothing else of it, iff it stands as the proposal expects (and no other check of a notes update objects); otherwise no shipment changes and the row says why; row, times, trail and answer are given in full, and no other row changes |
| RequestTheorems.RefusedConfirmationChangesNothing | app/ai/application/services/agent_action_service.py:123-163 | a confirmation by another owner, without one of the two permissions, or of an action no longer pending changes nothing |
| RequestTheorems.ConfirmationAnswers | app/ai/application/services/agent_action_service.py:115-210 | which reply each confirmation gets: not found, denied, in progress, conflict, the executed action as it is, or the outcome of its execution |
| Actions.ReasonsAreExact | app/ai/application/services/agent_action_service.py:262-330 | each reason for a failed execution is given in its own case and in no other |
| ProtocolTheorems.EffectsAreAuthorized | app/ai/application/services/agent_action_service.py:390-416 | every agent write writes exactly the stored target status or the stored new notes to the proposed shipment; proposal and confirmation both had shipment read and transition, respectively update, permission; a status was reached by a legal step from the status read |
| ProtocolTheorems.ConversationsAreComplete | app/api/routes/ai.py:489-601 | in every committed state questions never outnumber answers, and each action follows its question and confirmation message |
| ProtocolTheorems.OwnersActOnTheirOwn | app/ai/infrastructure/actions/repository.py:62-83 | in every reachable state an action belongs to the owner of its conversation, and a request holds rows of its own owner only |
| ProtocolTheorems.AnswersGoHome | app/ai/infrastructure/conversations/repository.py:252-270 | the answer to a confirmation or cancellation goes to a conversation of the request's owner |
| ProtocolTheorems.TurnIsInvisibleUntilCommitted | app/api/routes/ai.py:489-601 | no step of a turn before its commit, no refusal and no crash changes any committed table |
| ProtocolTheorems.TurnCommitsTogether | app/ai/application/services/conversation_service.py:172-195 | the final commit lands question, answer, title, continuation, action and audit at once, and changes no other conversation |
| ProtocolTheorems.TitlesFitAndAsk | app/ai/application/services/conversation_service.py:145-161 | in every reachable state a conversation's title has at most 120 characters, and is the default one or built from a question the conversation holds |
| ProtocolTheorems.TurnIsAcceptedExactlyWhen | app/api/routes/ai.py:489-527 | a turn starts iff its owner has nothing pending or executing in the conversation, and is prepared iff the conversation is the owner's and not deleted and the client names no continuation, null, or the stored one |
| ProtocolTheorems.TurnRunsWithStoredContinuation | app/api/routes/ai.py:514-524 | a prepared turn of an open conversation runs with no continuation or with the stored one |
| ProtocolTheorems.CompleteTurnStoresContinuation | app/ai/infrastructure/conversations/repository.py:192-218 | the continuation read back after a turn is the one the turn answered with |
| ProtocolTheorems.ClarificationIsResumed | app/api/routes/ai.py:514-524 | whatever else runs after the commit of a turn, as long as no other turn and no answer commits in its conversation, the next turn, sent with the continuation that turn answered with or without any, is accepted and runs with it |
| ProtocolExamples.FailedActionMayHaveTakenEffect | app/ai/application/services/agent_action_service.py:165-205 | a reachable state in which a committed failed action has changed its shipment |
| ProtocolExamples.StaleWriteAllowsSecondEffect | app/modules/shipments/application/use_cases/transition_shipment_status.py:41-118 | a reachable state in which one transition has taken effect twice after a single stale write, so the bound is reached |
| RequestTheorems.ConfirmationFollowsProtocol | app/ai/application/services/agent_action_service.py:115-210 | the service's confirmation, undisturbed, leaves the tables and shipments that its protocol steps leave |
| RequestTheorems.SecondConfirmationChangesNothing | app/ai/application/services/agent_action_service.py:134-146 | confirming again after a claimed attempt changes nothing, returns an executed action as it is, and reports a conflict on a failed one |
| RequestTheorems.CancellationEndsExactlyThePending | app/ai/application/services/agent_action_service.py:212-257 | in every reachable state an undisturbed cancellation sets status and time of the caller's pending action, records it and answers; any other action it leaves alone |
| RequestTheorems.CancellationAnswers | app/ai/application/services/agent_action_service.py:212-257 | which reply each cancellation gets |
| RequestTheorems.CancellationFollowsProtocol | app/ai/application/services/agent_action_service.py:212-257 | the same for a cancellation |
| RequestTheorems.NotificationFollowsProtocol | app/api/routes/ai.py:663-671 | in every reachable state the message after a changed action is stored as the protocol's step stores it: last, by the assistant, ending a clarification of a conversation not deleted |
| RequestTheorems.TurnFollowsProtocol | app/api/routes/ai.py:489-601 | an undisturbed turn leaves the tables that its protocol steps leave, refused and failed turns included |
| RequestTheorems.UndisturbedTurnIsStored | app/api/routes/ai.py:489-601 | in every reachable state an accepted, undisturbed turn stores its question, answer, title, continuation and proposed action, pending and untouched, and nothing else |
| RequestTheorems.TurnAnswers | app/api/routes/ai.py:489-601 | which reply each turn gets, and that the agent is given the agreed continuation and the last 20 messages |
| AgentTurns.AgentTurnFollowsProtocol | app/api/routes/ai.py:489-601 | the same with the agent graph as the agent, whatever the services answer; what the protocol takes for granted of results holds of it |
| AgentTurns.ClarificationResumesTheRoute | app/ai/infrastructure/agent/langgraph_runtime.py:300-391 | when the graph asks back and its turn is committed, the next turn of the open conversation that names that continuation, or none, is accepted and carries out the very route that asked on its question, unless blank, without the planner and proposing nothing |
| Requests.ActionRepository.CreateAction | app/ai/infrastructure/actions/repository.py:29-60 | inserts a pending row iff the id is new and the conversation has no active action |
| Requests.ActionRepository.ClaimForExecution | app/ai/infrastructure/actions/repository.py:112-143 | moves the caller's pending row to executing, or changes nothing |
| Requests.ActionRepository.MarkExecuted | app/ai/infrastructure/actions/repository.py:145-178 | moves the caller's executing row to executed with its result, or raises |
| Requests.ActionRepository.MarkFailed | app/ai/infrastructure/actions/repository.py:213-246 | moves the caller's executing row to failed with its reason, or raises |
| Requests.ActionRepository.MarkCancelled | app/ai/infrastructure/actions/repository.py:180-211 | moves the caller's pending row to cancelled, or changes nothing |
| Requests.ShipmentStore.Create | app/modules/shipments/application/use_cases/create_shipment.py:48-140 | stores a draft with cleaned columns iff the id is new and no check objects; stored rows stay clean |
| Requests.ShipmentStore.Transition | app/modules/shipments/application/use_cases/transition_shipment_status.py:41-118 | writes the target status iff the shipment exists and the lifecycle allows it |
| Requests.ShipmentStore.Update | app/modules/shipments/application/use_cases/update_shipment.py:46-140 | stores stripped notes and the cleaned other columns iff the shipment exists and no other check objects; columns written back as they were read do not change |
| Requests.AgentActionService.Propose | app/ai/application/services/agent_action_service.py:74-113 | stores and audits a pending action iff nothing active stands in the way; a violated key rolls the session back |
| Requests.AgentActionService.ExecuteClaimedAction | app/ai/application/services/agent_action_service.py:262-340 | changes the shipment iff expectation and use case agree, to the target status or the stripped new notes and in nothing else; else names the reason and leaves it |
| Requests.AgentActionService.FailAction | app/ai/application/services/agent_action_service.py:342-370 | marks, audits and commits the failure of a claimed action |
| Requests.AgentActionService.Confirm | app/ai/application/services/agent_action_service.py:115-210 | commits nothing but the outcome of a claimed action, row, audit and shipment as one specification says |
| Requests.AgentActionService.Cancel | app/ai/application/services/agent_action_service.py:212-257 | cancels, audits and commits a pending action, and leaves every other one alone |
| Requests.ConversationRepository.ListRecentMessages | app/ai/infrastructure/conversations/repository.py:116-150 | the newest-first query, reversed in place, is the tail of the conversation |
| RequestSpec.RecentIsTheEnd | app/ai/infrastructure/conversations/repository.py:116-150 | that tail is an end of the conversation, as long as the limit allows |
| Requests.ConversationRepository.AddMessage | app/ai/infrastructure/conversations/repository.py:152-170 | appends one message and changes nothing else |
| Requests.ConversationRepository.SetContinuation | app/ai/infrastructure/conversations/repository.py:192-218 | assigns the three columns of an open conversation of the caller |
| Requests.ConversationRepository.UpdateTitle | app/ai/infrastructure/conversations/repository.py:172-190 | assigns the title of an open conversation of the caller |
| Requests.ConversationService.PrepareTurn | app/ai/application/services/conversation_service.py:119-170 | context, title and question of a turn, committed nowhere yet |
| Requests.ConversationService.CompleteTurn | app/ai/application/services/conversation_service.py:172-195 | answer and continuation, and the commit of everything before them |
| Requests.ConversationService.Delete | app/ai/application/services/conversation_service.py:100-117 | marks an open conversation of the caller deleted and commits, or rolls back |
| Requests.AgentRoutes.RunAgent | app/api/routes/ai.py:489-601 | a turn commits once, at the end, or leaves the committed tables and a clean session |
| Requests.AgentRoutes.ConfirmAction | app/api/routes/ai.py:615-677 | a changed action is answered in its conversation and both are committed; a failure is committed without an answer, and every other outcome commits nothing |
| Requests.AgentRoutes.CancelAction | app/api/routes/ai.py:683-734 | a cancelled action is answered in its conversation and both are committed; every other outcome commits nothing |
| Conversations.ContinuationRoundTrip | app/ai/application/services/conversation_service.py:227-251 | storing then loading a continuation returns it, exactly for the routes that may be continued |
| Shipments.PrepareTransition | app/ai/application/services/prepare_shipment_action.py:23-64 | proposes iff the lifecycle allows the step, expecting the current status |
| Shipments.PrepareNotesUpdate | app/ai/application/services/prepare_shipment_action.py:66-108 | proposes iff the normalized notes are non-empty, short enough and new, expecting the current notes |
| Shipments.TransitionsClimb | app/modules/shipments/domain/lifecycle.py:3-33 | exactly the steps of the line from draft to delivered, and cancelling before transit, are allowed; so a rank increases and none can be taken back |
| Shipments.NormalNotesAreProposedUnchanged | app/ai/application/services/prepare_shipment_action.py:74-93 | normal notes of legal length are proposed word for word, and refused only when missing a shipment or a change |
| Shipments.NotesAreShown | app/ai/application/services/prepare_shipment_action.py:95-98 | notes of at most 180 characters are shown whole, longer ones as a marked beginning |
| Shipments.SummariesTellChangesApart | app/ai/application/services/prepare_shipment_action.py:60-107 | proposals for one shipment with the same summary have the same target, and the same notes as far as shown |
| Text.SplitInvertsJoin | app/ai/infrastructure/agent/llm_agent_planner.py:263 | splitting inverts joining on non-empty words without whitespace |
| Text.WordIsWhole | app/ai/infrastructure/agent/llm_agent_planner.py:263 | a word splits into itself |
| Text.SplitsAtEveryBlank | app/ai/infrastructure/agent/llm_agent_planner.py:263 | any whitespace character splits a text into the words of both sides, which with the row above determines the words of every text |
| Text.NormalizeKeepsInk | app/ai/infrastructure/agent/llm_agent_planner.py:263 | normalizing keeps every character that is not whitespace, in order |
| Text.StripCuts | app/ai/infrastructure/agent/llm_agent_planner.py:221 | stripping cuts all whitespace off both ends and nothing else |
| Text.NormalizeFixpoints | app/ai/infrastructure/agent/llm_agent_planner.py:263 | normalization is idempotent, and its fixpoints are exactly the strings with single inner blanks |
| Text.TitleFits | app/ai/application/services/conversation_service.py:218-225 | a title has at most 120 characters, is normal, and titles itself |
| Text.TitleKeepsBeginning | app/ai/application/services/conversation_service.py:218-225 | a question of at most 120 characters titles itself, normalized; a longer one is its first 119 characters, less one final blank, and the mark |
| Planner.ParseIdentifierList | app/ai/infrastructure/agent/llm_agent_planner.py:209-238 | the loop and the set-size test compute the specified list of distinct stripped identifiers or the first complaint |
| Planner.DistinctBySize | app/ai/infrastructure/agent/llm_agent_planner.py:235-236 | a list is free of repetitions iff its set is as large as it is long |
| Planner.PlannedIsValid | app/ai/infrastructure/agent/llm_agent_planner.py:22-83 | whatever the model answers, an accepted decision has exactly the valid fields of its route |
| Planner.ValidIsPlanned | app/ai/infrastructure/agent/llm_agent_planner.py:41-83 | every valid decision is parsed back from a payload that asks for it |
| Planner.PlanReadsThePayload | app/ai/infrastructure/agent/llm_agent_planner.py:22-273 | a payload is accepted as a decision iff it names the route exactly and gives the fields of that route: stripped identifiers, 2 to 5 distinct ones for several, a status name, words of notes |
| AgentGraph.RunPlanNode | app/ai/infrastructure/agent/langgraph_runtime.py:393-459 | the retry loop is the specified planning node |
| AgentTheorems.FreshRunsCarryOutThePlan | app/ai/infrastructure/agent/langgraph_runtime.py:393-459 | a fresh run carries out the first of two attempts the planner accepts, answers directly if it rejects both, and fails if the model does |
| AgentTheorems.ContinuedRunsCarryOutTheRoute | app/ai/infrastructure/agent/langgraph_runtime.py:342-391 | a continued run carries out the continued route on the stripped reply |
| AgentGraph.RunResolveSeveralNode | app/ai/infrastructure/agent/langgraph_runtime.py:571-627 | the loop records each identifier in order, and only foreign exceptions stop it |
| AgentGraph.RunReadSeveralNode | app/ai/infrastructure/agent/langgraph_runtime.py:693-762 | the loop reports one numbered item per resolution |
| AgentGraph.EdgeFrom | app/ai/infrastructure/agent/langgraph_runtime.py:126-235 | every edge leads strictly closer to the end |
| AgentMeaning.GraphMeansReply | app/ai/infrastructure/agent/langgraph_runtime.py:257-340 | running the graph equals a direct description without nodes, edges or state, for all services and questions |
| AgentTheorems.GuardTripsOnlyOnBlankReply | app/ai/infrastructure/agent/langgraph_runtime.py:364-367 | no guard and no missing edge is reachable, except that a continued run trips one iff its question is all whitespace |
| AgentTheorems.RunsAreShort | app/ai/infrastructure/agent/langgraph_runtime.py:126-235 | a run visits at most six nodes, none twice, and the planner iff it continues nothing |
| AgentTheorems.DeniedRunsTouchNoTool | app/ai/infrastructure/agent/langgraph_runtime.py:461-501 | a run touches a tool node iff the permissions of its route, by name, are granted; a denied one only says so |
| AgentTheorems.DeniedExactlyWhenMissing | app/ai/application/agent/authorization.py:47-76 | carrying out a decision is answered with a denial iff one of the named permissions is missing |
| AgentTheorems.DocumentsNeedDocumentRead | app/ai/application/agent/authorization.py:47-76 | without document read no run depends on any document |
| AgentTheorems.ShipmentsNeedShipmentRead | app/ai/application/agent/authorization.py:47-76 | without shipment read no run depends on any shipment, or on whether it exists |
| AgentTheorems.TimelinesNeedEventRead | app/ai/application/agent/authorization.py:47-76 | without shipment event read no run depends on a summary or an analysis |
| AgentTheorems.ConfirmationRechecksRoute | app/ai/application/agent/authorization.py:47-76 | confirming checks exactly the permissions of the proposing route, by name |
| AgentTheorems.ProposalsAreEarned | app/ai/infrastructure/agent/langgraph_runtime.py:830-896 | a proposal implies a planned write route, all its permissions, and the one resolved shipment |
| AgentTheorems.ResultsAreBacked | app/ai/infrastructure/agent/langgraph_runtime.py:257-340 | every result meets what the protocol takes for granted |
| AgentTheorems.FinishedRunsGoOn | app/api/routes/ai.py:537-572 | a prepared turn whose run finishes goes on to propose or complete with that result |
| AgentTheorems.PlannedNotesAreProposed | app/ai/infrastructure/agent/llm_agent_planner.py:257-273 | planned notes are proposed word for word unless the shipment has them already |
| AgentTheorems.AsksBackExactlyWhenAmbiguous | app/ai/infrastructure/agent/langgraph_runtime.py:531-562 | a continuation is returned iff an authorized single-shipment read was ambiguous, and holds its route and identifier |
| AgentTheorems.ReplyResumesTheRoute | app/ai/infrastructure/agent/langgraph_runtime.py:342-391 | the reply to a clarification runs the route that asked, without the planner, and proposes nothing |
| TimeOrder.SortIsStable | app/ai/application/agent/shipment_summary_tool.py:55-58 | the sort is ordered, a permutation, and keeps the order within each moment |
| TimeOrder.StableSortIsUnique | app/ai/application/agent/shipment_summary_tool.py:55-58 | there is only one stable sort of a list |
| TimeOrder.SortIgnoresInputOrder | app/ai/application/agent/shipment_summary_tool.py:55-58 | for distinct times the sort does not depend on the input order |
| Timeline.ScanForRegression | app/ai/application/services/analyze_shipment_operations.py:236-277 | the one-pass scan finds the first terminal event and the first later event of another status |
| Timeline.ScanForDeparture | app/ai/application/services/analyze_shipment_operations.py:280-324 | the scan with its growing set finds the first departure from a non-origin place without an earlier arrival |
| Timeline.Execute | app/ai/application/services/analyze_shipment_operations.py:22-73 | the extended list is the concatenation of the six detectors |
| TimelineTheorems.RegressionIsReported | app/ai/application/services/analyze_shipment_operations.py:236-277 | reported iff any terminal event precedes an event of another status; the age is that of the earliest event differing from the first terminal one |
| TimelineTheorems.DepartureIsReported | app/ai/application/services/analyze_shipment_operations.py:280-324 | reported iff some departure lacks an arrival, with the age of the first |
| TimelineTheorems.SummaryIsFaithful | app/ai/application/agent/shipment_summary_tool.py:55-91 | the summary lists exactly the recorded events, and its latest one is the last recorded of the latest moment |
| TimelineTheorems.ResortingSummaryIsIdentity | app/ai/application/services/analyze_shipment_operations.py:243-246 | sorting the summary's list again changes nothing |
| TimelineTheorems.AnalysisIgnoresInputOrder | app/ai/application/services/analyze_shipment_operations.py:22-73 | for distinct times the analysis does not depend on the order of the events read |
| TimelineTheorems.ReportedExactlyWhenWarranted | app/ai/application/services/analyze_shipment_operations.py:22-324 | each of the eight codes is reported iff the recorded events warrant it |
| TimelineTheorems.IssuesDescribeTheirEvents | app/ai/application/services/analyze_shipment_operations.py:76-324 | every reported issue has the severity of its code and names the age and the statuses of the events it is about |
| TimelineTheorems.RiskReadsOffIssues | app/ai/application/agent/shipment_operational_models.py:36-70 | distinct codes, at most one critical and no info issue; the score is 25 for each warning and 60 for a critical issue, at most 100; severity and level iff the matching counts |
| TimelineTheorems.IssuesAccumulate | app/ai/application/services/analyze_shipment_operations.py:76-157 | as time passes no issue disappears, and only staleness and stalling appear |
| TimelineTheorems.StaleImpliesStalledWhenOrdered | app/ai/application/services/analyze_shipment_operations.py:13-20 | stale with a located latest arrival implies stalled iff the stalled threshold is no larger than the stale one |
| Retrieval.Deduplicate | app/ai/application/services/retrieve_context.py:53-78 | the loop with its seen sets and early exit is a prefix of the unlimited result |
| Retrieval.Execute | app/ai/application/services/retrieve_context.py:21-50 | blank queries and non-positive limits answer nothing, others the deduplicated relevant rows |
| Retrieval.KeptIsGreedy | app/ai/application/services/retrieve_context.py:60-76 | what is kept are, in order, exactly the positions that clash with no kept one before |
| Retrieval.GreedyIsUnique | app/ai/application/services/retrieve_context.py:60-76 | only one choice of positions has that property |
| Retrieval.DeduplicationIsFinal | app/ai/application/services/retrieve_context.py:53-78 | deduplicating again removes nothing, and the result for a limit is a prefix of the result for the next |
| Retrieval.LimitDropsNothing | app/ai/application/services/retrieve_context.py:34-50 | after a search of at most `limit` rows the early exit never costs a result |
| Retrieval.LimitCuts | app/ai/application/services/retrieve_context.py:53-78 | a limit cuts the result after that many |
| Retrieval.SpacingIsIgnored | app/ai/application/services/retrieve_context.py:63 | contents are compared without regard to the whitespace between or around their parts |
| Retrieval.DifferentTextsClashOnlyByFolding | app/ai/application/services/retrieve_context.py:63-69 | results clash iff they are the same chunk or case folding makes their normalized contents alike; contents that differ in more than whitespace are different texts before folding |
| VectorIndex.ChunkIdInjective | app/ai/application/services/chunk_text.py:24-34 | chunk ids are equal iff document and index are, whatever the document id contains |
| VectorIndex.DigitsReadBack | app/ai/application/services/chunk_text.py:28 | the index in a chunk id is written in decimal without leading zeros |
| VectorIndex.VectorStore.ReplaceDocument | app/ai/infrastructure/vector_store/postgres_vector_store.py:19-52 | deletes and inserts as specified, or leaves the table on a violated key |
| VectorIndex.VectorStore.Ingest | app/ai/application/services/ingest_document.py:17-35 | chunks, embeds and replaces, and answers the number of chunks |
| VectorIndex.IngestSucceedsExactlyWhenUntaken | app/ai/infrastructure/vector_store/models.py:10-41 | ingestion succeeds iff there is one embedding per chunk and no other tenant holds one of the ids |
| VectorIndex.IngestReplacesExactly | app/ai/application/services/embed_document.py:16-49 | exactly one row per piece, numbered from 0 and paired by position; rows of other tenants and of other documents unchanged |
| VectorIndex.IngestIsIdempotent | app/ai/infrastructure/vector_store/postgres_vector_store.py:19-52 | ingesting the same text again changes nothing |
| VectorIndex.IngestionsCommute | app/ai/infrastructure/vector_store/postgres_vector_store.py:19-52 | ingestions of different documents commute, for the same tenant or different ones |
| VectorIndex.TenantsCanCollide | app/ai/application/services/chunk_text.py:28 | a concrete second ingestion that the primary key refuses |
| VectorIndex.RetrievalAnswers | app/ai/infrastructure/vector_store/postgres_vector_store.py:54-93 | all answers are the tenant's own and relevant; each relevant result left out repeats an answer that scores at least as well; a relevant row the search left out means that `limit` rows were found, all scoring at least as well |
| Rounding.HalfUpIsNearest | app/modules/billing/domain/money.py:7-11 | rounding errs by at most half a unit, and by half only away from zero |
| Rounding.NearestIsHalfUp | app/modules/billing/domain/money.py:7-11 | nothing but the rounded value has that property |
| Rounding.HalfUpIsMonotone | app/modules/billing/domain/money.py:7-11 | rounding is monotone |
| Rounding.HalfUpOnWholes | app/modules/billing/domain/money.py:7-11 | rounding is the identity on whole units, and odd |
| Rounding.RescalingKeepsRounding | app/modules/billing/domain/money.py:7-11 | trailing zeros do not change the rounded amount |
| Rounding.RoundMoneyIsNearest | app/modules/billing/domain/money.py:7-11 | rounding to cents is off by at most half a cent of the real value |
| Money.SubtotalIsClose | app/modules/billing/domain/money.py:14-25 | the subtotal is exact over the rounded lines and within half a cent per line of the unrounded sum |
| Money.LineIsNearest | app/modules/billing/domain/money.py:14-21 | a line amounts to quantity times unit price, to the nearest cent |
| Money.TotalsAreNearest | app/modules/billing/domain/money.py:28-33 | totals are the sums of their two parts, to the nearest cent |
| Money.TotalMatchesComponents | migrations/versions/50a934f25ca1_create_billing_invoicing_foundation.py:109-120 | the stored total is the subtotal plus the rounded tax, as the table's check demands |
| Money.ChargeIsMonotone | app/modules/pricing/domain/calculator.py:9-36 | of two weights at any decimal scales the heavier is never charged less, in either unit, and a pound never more than a kilogram |
| Money.ChargeIsNearest | app/modules/pricing/domain/calculator.py:9-36 | a charge is the weight in kilograms times the price, a pound being 0.45359237 of one, to the nearest cent |
| Money.QuoteMatchesComponents | app/modules/pricing/domain/calculator.py:39-47 | the quoted total is the sum of its stored components |
| Ledger.AcceptedExactlyWhenBalanced | app/modules/ledger/domain/rules.py:21-53 | accepted iff all lines are pure, both kinds occur and the totals agree |
| Ledger.ComplaintsAreOrdered | app/modules/ledger/domain/rules.py:21-53 | which complaint a journal meets, the first that applies |
| Ledger.SwappingPreservesAcceptance | app/modules/ledger/domain/rules.py:21-53 | swapping debits and credits preserves acceptance, both ways |
| Ledger.BooksBalance | app/modules/ledger/domain/rules.py:21-53 | over any sequence of submitted journals total debits equal total credits |
| Notifications.DeliverKeepsOrder | app/modules/notifications/application/use_cases/deliver_notification.py:61-180 | an attempt is made iff the notification is pending and due, and the order of attempts is kept |
| Notifications.DeliverRecordsTheAttempt | app/modules/notifications/application/use_cases/deliver_notification.py:61-180 | an attempt is recorded under the next number with its own time and answer, and decides status and next time; any other call changes nothing |
| Notifications.AttemptsAreCalls | app/modules/notifications/application/use_cases/deliver_notification.py:61-180 | over any calls the recorded attempts are some of the calls, in their order |
| Notifications.DeliveriesAreOrderly | app/modules/notifications/domain/rules.py:32-57 | over any calls: at most the maximum of attempts, each after its delay, and a status that the attempts determine |
| Notifications.SettledStays | app/modules/notifications/domain/rules.py:32-33 | a sent or failed notification never changes |
| Notifications.DelaysGrow | app/modules/notifications/domain/rules.py:60-78 | the delay starts at the base, doubles up to the cap and never shrinks |
| Notifications.WaitIsBounded | app/modules/notifications/domain/rules.py:60-78 | the waits total at most base times (2^n - 1), and at most n times the cap |
| Notifications.AttemptsWait | app/modules/notifications/domain/rules.py:60-78 | the waits are a lower bound on the time between the first attempt and any later one |

## Left out

- UpdateShipmentRow: another writer's update sets the other columns to any values at all; that the use cases clean what
  they store is a matter of ShipmentStore, where upper-casing is any function that cleaning twice leaves alone.
- ListRecentMessages: messages stand in the order of (created_at, id). The two messages of a turn share their
  created_at, so their order within the turn is a matter of their ids, and is not modelled.
- MayFind: rows at the same distance come in any order.
- RetryDelay: integer times in place of floats, so the overflow of very large powers is not modelled; the errors for
  arguments out of range are kept away by the configuration check of the delivery service.
- Decimal: exact integers, so the 28-digit context of Python's decimals is not modelled.
- Requests without a stored conversation, which write nothing and may not propose actions.
- Actions of an unknown type: the stored type is one of the two the agent proposes.
- Idempotency keys, created_at and updated_at, and the texts of generated messages and issues beyond the values in them.
- The tenant and the user of a row are one owner; row-level security is not modelled.
- A title, a message or a continuation is always written, also where the object-relational mapper would skip an
  assignment that changes nothing.
- The resolution of one identifier (UUID, tracking number, reference), language model, embedding and HTTP calls, JSON
  decoding, the text splitter and vector distance are arbitrary functions.
- The invoice, payment and outbox use cases, the notification recipient checks, the frontend, schemas and status codes.
- Listing and showing conversations and actions, the simple lifecycle tables, and the other modules' create, read,
  update and delete operations.
