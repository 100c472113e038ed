/**
 The agent runtime: a graph of thirteen nodes over one state record, with the source's guards (`RuntimeError`)
 and its tables of conditional edges. Everything outside it is an oracle that answers per request, or raises.
 */
module AgentGraph {
  import opened Prelude
  import opened Authorization
  import opened Shipments
  import opened Conversations
  import opened Protocol
  import Planner
  import Text

  // ---- the services the nodes call ----

  /** One call of the planner's model: the decoded payload (None: no JSON object), or an error of the provider. */
  datatype PlanAttempt = Answered(payload: Option<Planner.Payload>) | ProviderFailed

  /** The identifier service; `Unavailable` stands for any other exception. */
  datatype Resolution = Found(shipment: ShipmentId) | NotFound | Ambiguous | Unavailable

  datatype ItemReport =
    | Unknown(index: nat, identifier: string)
    | Unclear(index: nat, identifier: string)
    | Facts(index: nat, identifier: string, id: ShipmentId, shipment: Shipment)

  datatype ToolResult =
    | OneShipment(id: ShipmentId, shipment: Shipment)
    | SeveralShipments(reports: seq<ItemReport>)
    | OperationalAnalysis(text: string)
    | DocumentContext(text: string)

  /** None in place of a service's answer means that the call raised. */
  datatype Services = Services(
    planned: nat -> PlanAttempt,
    granted: set<Permission>,
    resolved: string -> Resolution,
    shipment: ShipmentId -> Option<Shipment>,
    summary: ShipmentId -> Option<string>,
    analysis: ShipmentId -> Option<string>,
    documents: string -> Option<string>,
    generated: (string, Option<ToolResult>) -> Option<string>
  )

  // ---- the state, the nodes and the edges ----

  datatype ResolutionStatus = IsResolved | IsUnknown | IsUnclear

  datatype ResolutionItem =
    ResolutionItem(identifier: string, status: ResolutionStatus, shipment: Option<ShipmentId>)

  datatype AgentState = AgentState(
    question: string,
    route: Option<Route>,
    identifier: Option<string>,
    shipment: Option<ShipmentId>,
    identifiers: seq<string>,
    shipments: seq<ShipmentId>,
    resolutions: seq<ResolutionItem>,
    targetStatus: Option<ShipmentStatus>,
    notes: Option<string>,
    proposal: Option<Proposal>,
    continuationRoute: Option<Route>,
    continuationIdentifier: Option<string>,
    toolResult: Option<ToolResult>,
    denied: bool,
    ambiguous: bool,
    notFound: bool,
    answer: Body
  )

  datatype Node =
    | Prepare
    | Plan
    | Authorize
    | ResolveOne
    | ResolveSeveral
    | ReadOne
    | ReadSeveral
    | Summarize
    | Analyze
    | ProposeTransition
    | ProposeNotes
    | Retrieve
    | Answer

  /** The labels the routing functions return. */
  datatype Label = ToPlan | ToAuthorize | IsDenied | IsNotFound | IsAmbiguous | Chosen(route: Route)

  /** A node hands on the state, lets a service's exception through, or trips one of its guards. */
  datatype NodeOutcome = Next(state: AgentState) | Raised | Guarded

  /** Where an edge leads; a label without an entry in the edge table is an error of the graph. */
  datatype Edge = To(node: Node) | End | Broken

  datatype Outcome = Finished(result: AgentResult) | Failed | GuardTripped

  function InitialState(question: string, continuation: Option<Continuation>): AgentState {
    AgentState(
      question, None, None, None, [], [], [], None, None, None,
      if continuation.Some? then Some(continuation.value.route) else None,
      if continuation.Some? then Some(continuation.value.originalIdentifier) else None,
      None, false, false, false, Words(""))
  }

  /** What `_prepare` and `_plan` both reset. */
  function Cleared(st: AgentState): AgentState {
    st.(route := None, identifier := None, shipment := None, identifiers := [], shipments := [], resolutions := [],
        targetStatus := None, notes := None, proposal := None, ambiguous := false, notFound := false)
  }

  function PrepareNode(st: AgentState): NodeOutcome {
    if st.continuationRoute.None? then Next(Cleared(st))
    else
      var identifier := Text.Strip(st.question);
      if identifier == "" then Guarded
      else Next(Cleared(st).(route := st.continuationRoute, identifier := Some(identifier)))
  }

  const FALLBACK := Planner.Decision(DirectAnswer, None, [], None, None)

  /** The planner gets two attempts; if it rejects both answers the agent answers directly. */
  function Decide(svc: Services, attempt: nat): Option<Planner.Decision>
    decreases 3 - attempt
  {
    if attempt >= 3 then Some(FALLBACK)
    else match svc.planned(attempt)
      case ProviderFailed => None
      case Answered(payload) =>
        var decision := Planner.Plan(payload);
        if decision.Ok? then Some(decision.value) else Decide(svc, attempt + 1)
  }

  function Planned(st: AgentState, d: Planner.Decision): AgentState {
    Cleared(st).(route := Some(d.route), identifier := d.identifier, identifiers := d.identifiers,
                 targetStatus := d.targetStatus, notes := d.notes,
                 continuationRoute := None, continuationIdentifier := None)
  }

  function PlanNode(st: AgentState, svc: Services): NodeOutcome {
    var decision := Decide(svc, 1);
    if decision.None? then Raised else Next(Planned(st, decision.value))
  }

  function AuthorizeNode(st: AgentState, svc: Services): NodeOutcome {
    if st.route.None? then Guarded
    else if IsAllowed(st.route.value, svc.granted) then Next(st.(denied := false))
    else Next(st.(denied := true, answer := NotAuthorized))
  }

  function ResolveOneNode(st: AgentState, svc: Services): NodeOutcome {
    if st.identifier.None? then Guarded
    else match svc.resolved(st.identifier.value)
      case Unavailable => Raised
      case Found(id) => Next(st.(shipment := Some(id), ambiguous := false, notFound := false))
      case NotFound =>
        Next(st.(shipment := None, continuationRoute := None, continuationIdentifier := None,
             ambiguous := false, notFound := true, answer := ShipmentNotFoundFor(st.identifier.value)))
      case Ambiguous =>
        var isWrite := st.route.Some? && IsWriteRoute(st.route.value);
        Next(st.(shipment := None,
             continuationRoute := if isWrite then None else st.route,
             continuationIdentifier := if isWrite then None else st.identifier,
             ambiguous := true, notFound := false,
             answer := ShipmentAmbiguousFor(st.identifier.value, isWrite)))
  }

  function ItemFor(svc: Services, identifier: string): Option<ResolutionItem> {
    match svc.resolved(identifier)
    case Unavailable => None
    case Ambiguous => Some(ResolutionItem(identifier, IsUnclear, None))
    case NotFound => Some(ResolutionItem(identifier, IsUnknown, None))
    case Found(id) => Some(ResolutionItem(identifier, IsResolved, Some(id)))
  }

  /** The identifiers resolved in order; only an exception of another kind stops the loop. */
  function ResolveAll(svc: Services, identifiers: seq<string>): Option<seq<ResolutionItem>> {
    if identifiers == [] then Some([])
    else
      var before := ResolveAll(svc, identifiers[..|identifiers| - 1]);
      var last := ItemFor(svc, identifiers[|identifiers| - 1]);
      if before.None? || last.None? then None else Some(before.value + [last.value])
  }

  function FoundIn(items: seq<ResolutionItem>): seq<ShipmentId> {
    if items == [] then []
    else
      var last := items[|items| - 1];
      FoundIn(items[..|items| - 1]) + if last.shipment.Some? then [last.shipment.value] else []
  }

  function ResolveSeveralNode(st: AgentState, svc: Services): NodeOutcome {
    if |st.identifiers| < 2 then Guarded
    else
      var items := ResolveAll(svc, st.identifiers);
      if items.None? then Raised
      else Next(st.(shipments := FoundIn(items.value), resolutions := items.value,
                ambiguous := false, notFound := false))
  }

  function ReadOneNode(st: AgentState, svc: Services): NodeOutcome {
    if st.shipment.None? then Guarded
    else match svc.shipment(st.shipment.value)
      case None => Raised
      case Some(facts) => Next(st.(toolResult := Some(OneShipment(st.shipment.value, facts))))
  }

  /** The reports so far, or why the loop over the items stopped. */
  datatype Reports = Reports(reports: seq<ItemReport>) | ReportRaised | ReportGuarded

  function Report(svc: Services, index: nat, item: ResolutionItem): Reports {
    match item.status
    case IsUnknown => Reports([Unknown(index, item.identifier)])
    case IsUnclear => Reports([Unclear(index, item.identifier)])
    case IsResolved =>
      if item.shipment.None? then ReportGuarded
      else match svc.shipment(item.shipment.value)
        case None => ReportRaised
        case Some(facts) => Reports([Facts(index, item.identifier, item.shipment.value, facts)])
  }

  function ReportAll(svc: Services, items: seq<ResolutionItem>): Reports {
    if items == [] then Reports([])
    else
      var before := ReportAll(svc, items[..|items| - 1]);
      if !before.Reports? then before
      else
        var last := Report(svc, |items|, items[|items| - 1]);
        if !last.Reports? then last else Reports(before.reports + last.reports)
  }

  function ReadSeveralNode(st: AgentState, svc: Services): NodeOutcome {
    if |st.resolutions| < 2 then Guarded
    else match ReportAll(svc, st.resolutions)
      case ReportRaised => Raised
      case ReportGuarded => Guarded
      case Reports(reports) => Next(st.(toolResult := Some(SeveralShipments(reports))))
  }

  function SummarizeNode(st: AgentState, svc: Services): NodeOutcome {
    if st.shipment.None? then Guarded
    else match svc.summary(st.shipment.value)
      case None => Raised
      case Some(text) => Next(st.(answer := Words(text)))
  }

  function AnalyzeNode(st: AgentState, svc: Services): NodeOutcome {
    if st.shipment.None? then Guarded
    else match svc.analysis(st.shipment.value)
      case None => Raised
      case Some(text) => Next(st.(toolResult := Some(OperationalAnalysis(text))))
  }

  /** A rejected proposal becomes the answer; a missing shipment is an exception of another kind. */
  function Proposed(st: AgentState, r: Result<Proposal, Rejection>): NodeOutcome {
    match r
    case Ok(p) => Next(st.(proposal := Some(p), answer := ConfirmationRequest(p.summary)))
    case Err(ShipmentMissing) => Raised
    case Err(reason) => Next(st.(proposal := None, answer := ProposalRefused(reason)))
  }

  function ProposeTransitionNode(st: AgentState, svc: Services): NodeOutcome {
    if st.shipment.None? || st.identifier.None? || st.targetStatus.None? then Guarded
    else
      Proposed(st, PrepareTransition(st.shipment.value, st.identifier.value, svc.shipment(st.shipment.value),
                                     st.targetStatus.value))
  }

  function ProposeNotesNode(st: AgentState, svc: Services): NodeOutcome {
    if st.shipment.None? || st.identifier.None? || st.notes.None? then Guarded
    else
      Proposed(st, PrepareNotesUpdate(st.shipment.value, st.identifier.value, svc.shipment(st.shipment.value),
                                      st.notes.value))
  }

  function RetrieveNode(st: AgentState, svc: Services): NodeOutcome {
    match svc.documents(st.question)
    case None => Raised
    case Some(text) => Next(st.(toolResult := Some(DocumentContext(text))))
  }

  function AnswerNode(st: AgentState, svc: Services): NodeOutcome {
    match svc.generated(st.question, st.toolResult)
    case None => Raised
    case Some(text) => Next(st.(answer := Words(text)))
  }

  function NodeStep(n: Node, st: AgentState, svc: Services): NodeOutcome {
    match n
    case Prepare => PrepareNode(st)
    case Plan => PlanNode(st, svc)
    case Authorize => AuthorizeNode(st, svc)
    case ResolveOne => ResolveOneNode(st, svc)
    case ResolveSeveral => ResolveSeveralNode(st, svc)
    case ReadOne => ReadOneNode(st, svc)
    case ReadSeveral => ReadSeveralNode(st, svc)
    case Summarize => SummarizeNode(st, svc)
    case Analyze => AnalyzeNode(st, svc)
    case ProposeTransition => ProposeTransitionNode(st, svc)
    case ProposeNotes => ProposeNotesNode(st, svc)
    case Retrieve => RetrieveNode(st, svc)
    case Answer => AnswerNode(st, svc)
  }

  // The routing functions (None: their guard) and the edge tables they index.

  function AfterPrepare(st: AgentState): Label {
    if st.continuationRoute.Some? then ToAuthorize else ToPlan
  }

  function PrepareEdges(choice: Label): Edge {
    match choice
    case ToPlan => To(Plan)
    case ToAuthorize => To(Authorize)
    case _ => Broken
  }

  function AfterAuthorization(st: AgentState): Option<Label> {
    if st.denied then Some(IsDenied) else if st.route.None? then None else Some(Chosen(st.route.value))
  }

  function AuthorizationEdges(choice: Label): Edge {
    match choice
    case IsDenied => End
    case Chosen(route) => (
      match route
      case DirectAnswer => To(Answer)
      case RetrieveContext => To(Retrieve)
      case GetShipments => To(ResolveSeveral)
      case _ => To(ResolveOne)
    )
    case _ => Broken
  }

  function AfterResolution(st: AgentState): Option<Label> {
    if st.notFound then Some(IsNotFound)
    else if st.ambiguous then Some(IsAmbiguous)
    else if st.route.None? || !(IsContinuationRoute(st.route.value) || IsWriteRoute(st.route.value)) then None
    else Some(Chosen(st.route.value))
  }

  function ResolutionEdges(choice: Label): Edge {
    match choice
    case IsNotFound => End
    case IsAmbiguous => End
    case Chosen(route) => (
      match route
      case GetShipment => To(ReadOne)
      case SummarizeShipment => To(Summarize)
      case AnalyzeShipmentOperations => To(Analyze)
      case TransitionShipmentStatus => To(ProposeTransition)
      case UpdateShipmentNotes => To(ProposeNotes)
      case _ => Broken
    )
    case _ => Broken
  }

  function AfterResolutions(st: AgentState): Option<Label> {
    if st.resolutions == [] then None else Some(Chosen(GetShipments))
  }

  function ResolutionsEdges(choice: Label): Edge {
    match choice
    case IsAmbiguous => End
    case Chosen(GetShipments) => To(ReadSeveral)
    case _ => Broken
  }

  /** How far a node is from the end of the graph. */
  function Distance(n: Node): nat {
    match n
    case Prepare => 6
    case Plan => 5
    case Authorize => 4
    case ResolveOne => 3
    case ResolveSeveral => 3
    case ReadOne => 2
    case ReadSeveral => 2
    case Summarize => 2
    case Analyze => 2
    case ProposeTransition => 2
    case ProposeNotes => 2
    case Retrieve => 2
    case Answer => 1
  }

  /** Every edge leads closer to the end. */
  function EdgeFrom(n: Node, st: AgentState): (e: Edge)
    ensures e.To? ==> Distance(e.node) < Distance(n)
  {
    match n
    case Prepare => PrepareEdges(AfterPrepare(st))
    case Plan => To(Authorize)
    case Authorize =>
      if AfterAuthorization(st).None? then Broken else AuthorizationEdges(AfterAuthorization(st).value)
    case ResolveOne => if AfterResolution(st).None? then Broken else ResolutionEdges(AfterResolution(st).value)
    case ResolveSeveral =>
      if AfterResolutions(st).None? then Broken else ResolutionsEdges(AfterResolutions(st).value)
    case ReadOne => To(Answer)
    case ReadSeveral => To(Answer)
    case Analyze => To(Answer)
    case Retrieve => To(Answer)
    case Summarize => End
    case ProposeTransition => End
    case ProposeNotes => End
    case Answer => End
  }

  /** Runs the graph from a node to its end. */
  function RunFrom(n: Node, st: AgentState, svc: Services): NodeOutcome
    decreases Distance(n)
  {
    var outcome := NodeStep(n, st, svc);
    if !outcome.Next? then outcome
    else match EdgeFrom(n, outcome.state)
      case Broken => Guarded
      case End => outcome
      case To(m) => RunFrom(m, outcome.state, svc)
  }

  /** The nodes such a run visits. */
  function PathFrom(n: Node, st: AgentState, svc: Services): (path: seq<Node>)
    ensures 0 < |path| <= Distance(n) && path[0] == n
    decreases Distance(n)
  {
    var outcome := NodeStep(n, st, svc);
    if !outcome.Next? || !EdgeFrom(n, outcome.state).To? then [n]
    else [n] + PathFrom(EdgeFrom(n, outcome.state).node, outcome.state, svc)
  }

  /** How the final state becomes the result, with its two guards. */
  function Conclude(outcome: NodeOutcome): Outcome {
    match outcome
    case Raised => Failed
    case Guarded => GuardTripped
    case Next(st) =>
      if !st.ambiguous then Finished(AgentResult(st.answer, None, st.proposal))
      else if st.route.Some? && (st.route.value.GetShipments? || IsWriteRoute(st.route.value)) then
        Finished(AgentResult(st.answer, None, st.proposal))
      else if st.route.None? || !IsContinuationRoute(st.route.value) || st.continuationIdentifier.None? then
        GuardTripped
      else
        Finished(AgentResult(st.answer, Some(Continuation(st.route.value, st.continuationIdentifier.value)),
                             st.proposal))
  }

  function Execute(svc: Services, question: string, continuation: Option<Continuation>): Outcome {
    Conclude(RunFrom(Prepare, InitialState(question, continuation), svc))
  }

  function Path(svc: Services, question: string, continuation: Option<Continuation>): seq<Node> {
    PathFrom(Prepare, InitialState(question, continuation), svc)
  }

  // ---- the nodes that loop ----

  /** `_plan`: two attempts, then the fallback. */
  method RunPlanNode(st: AgentState, svc: Services) returns (r: NodeOutcome)
    ensures r == NodeStep(Plan, st, svc)
  {
    var decision: Option<Planner.Decision> := None;
    var attempt := 1;
    while attempt < 3 && decision.None?
      invariant 1 <= attempt <= 3
      invariant decision.Some? ==> Decide(svc, 1) == decision
      invariant decision.None? ==> Decide(svc, 1) == Decide(svc, attempt)
      decreases 3 - attempt, decision.None?
    {
      var answered := svc.planned(attempt);
      if answered.ProviderFailed? {
        return Raised;
      }
      var parsed := Planner.Plan(answered.payload);
      if parsed.Ok? {
        decision := Some(parsed.value);
      } else {
        attempt := attempt + 1;
      }
    }
    if decision.None? {
      return Next(Planned(st, FALLBACK));
    }
    return Next(Planned(st, decision.value));
  }

  /** `_resolve_shipments`: what cannot be resolved is recorded, and the loop goes on. */
  method RunResolveSeveralNode(st: AgentState, svc: Services) returns (r: NodeOutcome)
    ensures r == NodeStep(ResolveSeveral, st, svc)
  {
    if |st.identifiers| < 2 {
      return Guarded;
    }
    var ids := st.identifiers;
    var shipments: seq<ShipmentId> := [];
    var resolutions: seq<ResolutionItem> := [];
    var i := 0;
    while i < |ids|
      invariant 0 <= i <= |ids|
      invariant ResolveAll(svc, ids[..i]) == Some(resolutions)
      invariant FoundIn(resolutions) == shipments
    {
      assert ids[..i + 1][..i] == ids[..i];
      match svc.resolved(ids[i]) {
        case Unavailable =>
          ResolveAllStops(svc, ids, i + 1);
          return Raised;
        case Ambiguous => resolutions := resolutions + [ResolutionItem(ids[i], IsUnclear, None)];
        case NotFound => resolutions := resolutions + [ResolutionItem(ids[i], IsUnknown, None)];
        case Found(id) =>
          shipments := shipments + [id];
          resolutions := resolutions + [ResolutionItem(ids[i], IsResolved, Some(id))];
      }
      assert resolutions[..|resolutions| - 1] == ResolveAll(svc, ids[..i]).value;
      i := i + 1;
    }
    assert ids[..i] == ids;
    return Next(st.(shipments := shipments, resolutions := resolutions, ambiguous := false, notFound := false));
  }

  lemma {:induction false} ResolveAllStops(svc: Services, ids: seq<string>, n: nat)
    requires n <= |ids| && ResolveAll(svc, ids[..n]).None?
    ensures ResolveAll(svc, ids).None?
  {
    if n == |ids| {
      assert ids[..n] == ids;
    } else {
      assert ids[..|ids| - 1][..n] == ids[..n];
      ResolveAllStops(svc, ids[..|ids| - 1], n);
    }
  }

  /** `_get_shipments`: one report per item, numbered from 1. */
  method RunReadSeveralNode(st: AgentState, svc: Services) returns (r: NodeOutcome)
    ensures r == NodeStep(ReadSeveral, st, svc)
  {
    if |st.resolutions| < 2 {
      return Guarded;
    }
    var items := st.resolutions;
    var reports: seq<ItemReport> := [];
    var i := 0;
    while i < |items|
      invariant 0 <= i <= |items|
      invariant ReportAll(svc, items[..i]) == Reports(reports)
    {
      assert items[..i + 1][..i] == items[..i];
      var item := items[i];
      match item.status {
        case IsUnknown => reports := reports + [Unknown(i + 1, item.identifier)];
        case IsUnclear => reports := reports + [Unclear(i + 1, item.identifier)];
        case IsResolved =>
          if item.shipment.None? {
            ReportAllStops(svc, items, i + 1);
            return Guarded;
          }
          var facts := svc.shipment(item.shipment.value);
          if facts.None? {
            ReportAllStops(svc, items, i + 1);
            return Raised;
          }
          reports := reports + [Facts(i + 1, item.identifier, item.shipment.value, facts.value)];
      }
      i := i + 1;
    }
    assert items[..i] == items;
    return Next(st.(toolResult := Some(SeveralShipments(reports))));
  }

  lemma {:induction false} ReportAllStops(svc: Services, items: seq<ResolutionItem>, n: nat)
    requires n <= |items| && !ReportAll(svc, items[..n]).Reports?
    ensures ReportAll(svc, items) == ReportAll(svc, items[..n])
  {
    if n == |items| {
      assert items[..n] == items;
    } else {
      assert items[..|items| - 1][..n] == items[..n];
      ReportAllStops(svc, items[..|items| - 1], n);
    }
  }
}
