/** What a run of the agent graph means, written without nodes, edges or state, and the proof that it means that. */
module AgentMeaning {
  import opened Prelude
  import opened Authorization
  import opened Shipments
  import opened Conversations
  import opened Protocol
  import opened AgentGraph
  import Planner
  import Text

  /** The decision a turn carries out: the continued one, or the planner's (None: its model failed). */
  function Intent(svc: Services, question: string, continuation: Option<Continuation>): Option<Planner.Decision> {
    match continuation
    case None => Decide(svc, 1)
    case Some(c) => Some(Planner.Decision(c.route, Some(Text.Strip(question)), [], None, None))
  }

  function Generated(svc: Services, question: string, facts: Option<ToolResult>): Outcome {
    match svc.generated(question, facts)
    case None => Failed
    case Some(text) => Finished(AgentResult(Words(text), None, None))
  }

  /** Whether the lookup of one of several identifiers raises nothing. */
  predicate CanReport(svc: Services, identifier: string) {
    match svc.resolved(identifier)
    case Unavailable => false
    case Found(id) => svc.shipment(id).Some?
    case _ => true
  }

  function ReportOn(svc: Services, index: nat, identifier: string): ItemReport
    requires CanReport(svc, identifier)
  {
    match svc.resolved(identifier)
    case Found(id) => Facts(index, identifier, id, svc.shipment(id).value)
    case Ambiguous => Unclear(index, identifier)
    case _ => Unknown(index, identifier)
  }

  predicate CanReportAll(svc: Services, ids: seq<string>) {
    forall i :: 0 <= i < |ids| ==> CanReport(svc, ids[i])
  }

  function ReportsOn(svc: Services, ids: seq<string>): seq<ItemReport>
    requires CanReportAll(svc, ids)
  {
    seq(|ids|, i requires 0 <= i < |ids| => ReportOn(svc, i + 1, ids[i]))
  }

  function ReplyProposing(r: Result<Proposal, Rejection>): Outcome {
    match r
    case Ok(p) => Finished(AgentResult(ConfirmationRequest(p.summary), None, Some(p)))
    case Err(ShipmentMissing) => Failed
    case Err(reason) => Finished(AgentResult(ProposalRefused(reason), None, None))
  }

  /** The reply once the one shipment asked about is known. */
  function ReplyAbout(svc: Services, question: string, d: Planner.Decision, id: ShipmentId): Outcome
    requires Planner.ValidDecision(d) || IsContinuationRoute(d.route)
    requires d.identifier.Some?
  {
    match d.route
    case SummarizeShipment =>
      (match svc.summary(id)
       case None => Failed
       case Some(text) => Finished(AgentResult(Words(text), None, None)))
    case AnalyzeShipmentOperations =>
      (match svc.analysis(id)
       case None => Failed
       case Some(text) => Generated(svc, question, Some(OperationalAnalysis(text))))
    case TransitionShipmentStatus =>
      ReplyProposing(PrepareTransition(id, d.identifier.value, svc.shipment(id), d.targetStatus.value))
    case UpdateShipmentNotes =>
      ReplyProposing(PrepareNotesUpdate(id, d.identifier.value, svc.shipment(id), d.notes.value))
    case _ =>
      match svc.shipment(id)
      case None => Failed
      case Some(facts) => Generated(svc, question, Some(OneShipment(id, facts)))
  }

  /** Decisions the graph is given: the planner's, and the ones a continuation stands for. */
  predicate Executable(d: Planner.Decision) {
    Planner.ValidDecision(d) || (IsContinuationRoute(d.route) && d.identifier.Some?)
  }

  function Reply(svc: Services, question: string, d: Planner.Decision): Outcome
    requires Executable(d)
  {
    if !IsAllowed(d.route, svc.granted) then Finished(AgentResult(NotAuthorized, None, None))
    else match d.route
      case DirectAnswer => Generated(svc, question, None)
      case RetrieveContext =>
        (match svc.documents(question)
         case None => Failed
         case Some(text) => Generated(svc, question, Some(DocumentContext(text))))
      case GetShipments =>
        if CanReportAll(svc, d.identifiers)
        then Generated(svc, question, Some(SeveralShipments(ReportsOn(svc, d.identifiers))))
        else Failed
      case _ =>
        var identifier := d.identifier.value;
        match svc.resolved(identifier)
        case Unavailable => Failed
        case NotFound => Finished(AgentResult(ShipmentNotFoundFor(identifier), None, None))
        case Ambiguous =>
          var isWrite := IsWriteRoute(d.route);
          Finished(AgentResult(ShipmentAmbiguousFor(identifier, isWrite),
                               if isWrite then None else Some(Continuation(d.route, identifier)), None))
        case Found(id) => ReplyAbout(svc, question, d, id)
  }

  predicate Continuable(continuation: Option<Continuation>) {
    continuation.Some? ==> IsContinuationRoute(continuation.value.route)
  }

  lemma {:induction false} DecisionsAreExecutable(svc: Services, attempt: nat)
    requires Decide(svc, attempt).Some?
    ensures Planner.ValidDecision(Decide(svc, attempt).value)
    decreases 3 - attempt
  {
    if attempt < 3 {
      var payload := svc.planned(attempt).payload;
      if Planner.Plan(payload).Ok? {
        Planner.PlannedIsValid(payload);
      } else {
        DecisionsAreExecutable(svc, attempt + 1);
      }
    }
  }

  lemma IntentIsExecutable(svc: Services, question: string, continuation: Option<Continuation>)
    requires Continuable(continuation) && Intent(svc, question, continuation).Some?
    ensures Executable(Intent(svc, question, continuation).value)
  {
    if continuation.None? {
      DecisionsAreExecutable(svc, 1);
    }
  }

  /** What a run amounts to: a blank reply to a clarification trips a guard, anything else is decided and replied to. */
  function Meaning(svc: Services, question: string, continuation: Option<Continuation>): Outcome
    requires Continuable(continuation)
  {
    var intent := Intent(svc, question, continuation);
    if continuation.Some? && Text.Strip(question) == "" then GuardTripped
    else if intent.None? then Failed
    else
      IntentIsExecutable(svc, question, continuation);
      Reply(svc, question, intent.value)
  }

  // ---- the graph carries out the decision ----

  /** The state carries the decision and nothing else yet. */
  predicate Carries(st: AgentState, question: string, d: Planner.Decision) {
    && st.question == question && st.route == Some(d.route) && st.identifier == d.identifier
    && st.identifiers == d.identifiers && st.targetStatus == d.targetStatus && st.notes == d.notes
    && st.shipment.None? && st.resolutions == [] && st.proposal.None? && st.toolResult.None?
    && !st.denied && !st.ambiguous && !st.notFound
  }

  lemma AnswerGenerates(svc: Services, st: AgentState)
    requires !st.ambiguous && st.proposal.None?
    ensures Conclude(RunFrom(Answer, st, svc)) == Generated(svc, st.question, st.toolResult)
  {
  }

  lemma ReadOneReplies(svc: Services, st: AgentState, d: Planner.Decision, id: ShipmentId)
    requires Executable(d) && d.route.GetShipment? && d.identifier.Some?
    requires Carries(st.(shipment := None), st.question, d) && st.shipment == Some(id)
    ensures Conclude(RunFrom(ReadOne, st, svc)) == ReplyAbout(svc, st.question, d, id)
  {
    if svc.shipment(id).Some? {
      AnswerGenerates(svc, st.(toolResult := Some(OneShipment(id, svc.shipment(id).value))));
    }
  }

  lemma AnalyzeReplies(svc: Services, st: AgentState, d: Planner.Decision, id: ShipmentId)
    requires Executable(d) && d.route.AnalyzeShipmentOperations? && d.identifier.Some?
    requires Carries(st.(shipment := None), st.question, d) && st.shipment == Some(id)
    ensures Conclude(RunFrom(Analyze, st, svc)) == ReplyAbout(svc, st.question, d, id)
  {
    if svc.analysis(id).Some? {
      AnswerGenerates(svc, st.(toolResult := Some(OperationalAnalysis(svc.analysis(id).value))));
    }
  }

  lemma FoundShipmentReplies(svc: Services, st: AgentState, d: Planner.Decision, id: ShipmentId)
    requires Executable(d) && (IsContinuationRoute(d.route) || IsWriteRoute(d.route)) && d.identifier.Some?
    requires Carries(st.(shipment := None), st.question, d) && st.shipment == Some(id)
    ensures ResolutionEdges(Chosen(d.route)).To?
    ensures Conclude(RunFrom(ResolutionEdges(Chosen(d.route)).node, st, svc))
            == ReplyAbout(svc, st.question, d, id)
  {
    match d.route
    case GetShipment => ReadOneReplies(svc, st, d, id);
    case AnalyzeShipmentOperations => AnalyzeReplies(svc, st, d, id);
    case _ =>
  }

  lemma ResolveOneReplies(svc: Services, st: AgentState, d: Planner.Decision)
    requires Executable(d) && (IsContinuationRoute(d.route) || IsWriteRoute(d.route)) && d.identifier.Some?
    requires Carries(st, st.question, d) && IsAllowed(d.route, svc.granted)
    ensures Conclude(RunFrom(ResolveOne, st, svc)) == Reply(svc, st.question, d)
  {
    var resolution := svc.resolved(d.identifier.value);
    if resolution.Found? {
      var found := st.(shipment := Some(resolution.shipment), ambiguous := false, notFound := false);
      assert ResolveOneNode(st, svc) == Next(found);
      assert AfterResolution(found) == Some(Chosen(d.route));
      FoundShipmentReplies(svc, found, d, resolution.shipment);
    }
  }

  lemma {:induction false} SeveralAreResolved(svc: Services, ids: seq<string>)
    ensures CanReportAll(svc, ids) ==>
              && ResolveAll(svc, ids).Some?
              && |ResolveAll(svc, ids).value| == |ids|
              && ReportAll(svc, ResolveAll(svc, ids).value) == Reports(ReportsOn(svc, ids))
    ensures !CanReportAll(svc, ids) ==>
              || ResolveAll(svc, ids).None?
              || (|ResolveAll(svc, ids).value| == |ids| && ReportAll(svc, ResolveAll(svc, ids).value) == ReportRaised)
  {
    if ids != [] {
      var n := |ids| - 1;
      SeveralAreResolved(svc, ids[..n]);
      assert CanReportAll(svc, ids) <==> CanReportAll(svc, ids[..n]) && CanReport(svc, ids[n]);
      if ResolveAll(svc, ids).Some? {
        var items := ResolveAll(svc, ids).value;
        assert items[..n] == ResolveAll(svc, ids[..n]).value && items[n] == ItemFor(svc, ids[n]).value;
        if CanReportAll(svc, ids) {
          assert ReportsOn(svc, ids) == ReportsOn(svc, ids[..n]) + [ReportOn(svc, n + 1, ids[n])];
        }
      }
    }
  }

  lemma ReadSeveralReplies(svc: Services, st: AgentState)
    requires |st.resolutions| >= 2 && !st.ambiguous && st.proposal.None?
    ensures var reports := ReportAll(svc, st.resolutions);
            Conclude(RunFrom(ReadSeveral, st, svc))
            == match reports
               case Reports(r) => Generated(svc, st.question, Some(SeveralShipments(r)))
               case ReportRaised => Failed
               case ReportGuarded => GuardTripped
  {
    var reports := ReportAll(svc, st.resolutions);
    if reports.Reports? {
      AnswerGenerates(svc, st.(toolResult := Some(SeveralShipments(reports.reports))));
    }
  }

  lemma ResolveSeveralReplies(svc: Services, st: AgentState, d: Planner.Decision)
    requires Planner.ValidDecision(d) && d.route.GetShipments?
    requires Carries(st, st.question, d) && IsAllowed(d.route, svc.granted)
    ensures Conclude(RunFrom(ResolveSeveral, st, svc)) == Reply(svc, st.question, d)
  {
    SeveralAreResolved(svc, d.identifiers);
    var items := ResolveAll(svc, d.identifiers);
    if items.Some? {
      var resolved := st.(shipments := FoundIn(items.value), resolutions := items.value,
                          ambiguous := false, notFound := false);
      assert ResolveSeveralNode(st, svc) == Next(resolved);
      ReadSeveralReplies(svc, resolved);
    }
  }

  lemma AuthorizeReplies(svc: Services, st: AgentState, d: Planner.Decision)
    requires Executable(d) && Carries(st, st.question, d)
    ensures Conclude(RunFrom(Authorize, st, svc)) == Reply(svc, st.question, d)
  {
    if IsAllowed(d.route, svc.granted) {
      assert AuthorizeNode(st, svc) == Next(st);
      match d.route
      case DirectAnswer => AnswerGenerates(svc, st);
      case RetrieveContext =>
        if svc.documents(st.question).Some? {
          AnswerGenerates(svc, st.(toolResult := Some(DocumentContext(svc.documents(st.question).value))));
        }
      case GetShipments => ResolveSeveralReplies(svc, st, d);
      case _ => ResolveOneReplies(svc, st, d);
    }
  }

  /** Whatever the services answer, running the graph amounts to its meaning. */
  lemma GraphMeansReply(svc: Services, question: string, continuation: Option<Continuation>)
    requires Continuable(continuation)
    ensures Execute(svc, question, continuation) == Meaning(svc, question, continuation)
  {
    var intent := Intent(svc, question, continuation);
    var start := InitialState(question, continuation);
    if continuation.Some? {
      if Text.Strip(question) != "" {
        var st := Cleared(start).(route := start.continuationRoute, identifier := Some(Text.Strip(question)));
        assert PrepareNode(start) == Next(st);
        AuthorizeReplies(svc, st, intent.value);
      }
    } else {
      var cleared := Cleared(start);
      assert PrepareNode(start) == Next(cleared);
      if intent.Some? {
        IntentIsExecutable(svc, question, continuation);
        assert PlanNode(cleared, svc) == Next(Planned(cleared, intent.value));
        AuthorizeReplies(svc, Planned(cleared, intent.value), intent.value);
      }
    }
  }
}
