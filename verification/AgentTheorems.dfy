/** What every run of the agent guarantees, and how it meets the action protocol. */
module AgentTheorems {
  import opened Prelude
  import opened Authorization
  import opened Shipments
  import opened Actions
  import opened Conversations
  import opened Protocol
  import opened AgentGraph
  import opened AgentMeaning
  import Planner
  import Text

  // ---- guards and paths ----

  lemma {:induction false} LStripsToNothing(s: string)
    ensures Text.LStrip(s) == "" <==> forall i :: 0 <= i < |s| ==> Text.IsSpace(s[i])
  {
    if s != "" && Text.IsSpace(s[0]) {
      LStripsToNothing(s[1..]);
      assert forall i :: 0 < i < |s| ==> s[i] == s[1..][i - 1];
    }
  }

  lemma StripsToNothing(s: string)
    ensures Text.Strip(s) == "" <==> forall i :: 0 <= i < |s| ==> Text.IsSpace(s[i])
  {
    LStripsToNothing(s);
    var left := Text.LStrip(s);
    if left != "" {
      Text.LStripStops(s);
      RStripKeepsInk(left);
    }
  }

  lemma {:induction false} RStripKeepsInk(s: string)
    requires s != "" && !Text.IsSpace(s[0])
    ensures Text.RStrip(s) != ""
  {
    if Text.IsSpace(s[|s| - 1]) {
      assert s[..|s| - 1][0] == s[0];
      RStripKeepsInk(s[..|s| - 1]);
    }
  }

  /**
   Of all the runtime's guards and edge tables, a run can trip only the one on a clarification's reply, and it
   does so exactly when it continues a clarification with a question that is all whitespace.
   */
  lemma GuardTripsOnlyOnBlankReply(svc: Services, question: string, continuation: Option<Continuation>)
    requires Continuable(continuation)
    ensures Execute(svc, question, continuation) == GuardTripped
            <==> continuation.Some? && forall i :: 0 <= i < |question| ==> Text.IsSpace(question[i])
  {
    GraphMeansReply(svc, question, continuation);
    MeaningTripsOnlyOnBlank(svc, question, continuation);
    StripsToNothing(question);
  }

  lemma ReplyNeverTrips(svc: Services, question: string, d: Planner.Decision)
    requires Executable(d)
    ensures Reply(svc, question, d) != GuardTripped
  {
  }

  lemma MeaningTripsOnlyOnBlank(svc: Services, question: string, continuation: Option<Continuation>)
    requires Continuable(continuation)
    ensures Meaning(svc, question, continuation) == GuardTripped
            <==> continuation.Some? && Text.Strip(question) == ""
  {
    var intent := Intent(svc, question, continuation);
    if intent.Some? {
      IntentIsExecutable(svc, question, continuation);
      ReplyNeverTrips(svc, question, intent.value);
    }
  }

  predicate Descends(path: seq<Node>) {
    forall i, j :: 0 <= i < j < |path| ==> Distance(path[j]) < Distance(path[i])
  }

  predicate Distinct(path: seq<Node>) {
    forall i, j :: 0 <= i < j < |path| ==> path[i] != path[j]
  }

  lemma {:induction false} PathDescends(n: Node, st: AgentState, svc: Services)
    ensures Descends(PathFrom(n, st, svc)) && Distinct(PathFrom(n, st, svc))
    decreases Distance(n)
  {
    var path := PathFrom(n, st, svc);
    if |path| > 1 {
      var m, next := EdgeFrom(n, NodeStep(n, st, svc).state).node, NodeStep(n, st, svc).state;
      PathDescends(m, next, svc);
      StepThenDescend(n, PathFrom(m, next, svc));
    }
    DescendingIsDistinct(path);
  }

  lemma StepThenDescend(n: Node, rest: seq<Node>)
    requires rest != [] && Distance(rest[0]) < Distance(n) && Descends(rest)
    ensures Descends([n] + rest)
  {
    var path := [n] + rest;
    forall i, j | 0 <= i < j < |path| ensures Distance(path[j]) < Distance(path[i]) {
      assert Distance(rest[j - 1]) <= Distance(rest[0]);
      if i > 0 {
        assert path[i] == rest[i - 1];
      }
    }
  }

  lemma DescendingIsDistinct(path: seq<Node>)
    requires Descends(path)
    ensures Distinct(path)
  {
  }

  /** A path that starts below the planner never meets it. */
  lemma PathBelowPlan(n: Node, st: AgentState, svc: Services)
    requires Distance(n) < Distance(Plan)
    ensures Plan !in PathFrom(n, st, svc)
  {
    PathDescends(n, st, svc);
    var path := PathFrom(n, st, svc);
    forall i | 0 <= i < |path| ensures path[i] != Plan {
      assert Distance(path[i]) <= Distance(path[0]);
    }
  }

  lemma PlansExactlyWhenFresh(svc: Services, question: string, continuation: Option<Continuation>)
    ensures Plan in Path(svc, question, continuation) <==> continuation.None?
  {
    var start := InitialState(question, continuation);
    var path, outcome := Path(svc, question, continuation), PrepareNode(start);
    if outcome.Next? {
      var m := if continuation.None? then Plan else Authorize;
      assert path == [Prepare] + PathFrom(m, outcome.state, svc);
      if continuation.Some? {
        PathBelowPlan(Authorize, outcome.state, svc);
      } else {
        assert path[1] == Plan;
      }
    }
  }

  /** A run visits at most six nodes, none of them twice, and asks the planner exactly when it continues nothing. */
  lemma RunsAreShort(svc: Services, question: string, continuation: Option<Continuation>)
    ensures |Path(svc, question, continuation)| <= 6
    ensures Distinct(Path(svc, question, continuation))
    ensures Plan in Path(svc, question, continuation) <==> continuation.None?
  {
    PathDescends(Prepare, InitialState(question, continuation), svc);
    PlansExactlyWhenFresh(svc, question, continuation);
  }

  // ---- authorization ----

  /** What a user needs for a route, by name. */
  predicate Suffices(route: Route, granted: set<Permission>) {
    match route
    case DirectAnswer => true
    case RetrieveContext => DocumentRead in granted
    case GetShipment => ShipmentRead in granted
    case GetShipments => ShipmentRead in granted
    case SummarizeShipment => ShipmentRead in granted && ShipmentEventRead in granted
    case AnalyzeShipmentOperations => ShipmentRead in granted && ShipmentEventRead in granted
    case TransitionShipmentStatus => ShipmentRead in granted && ShipmentTransition in granted
    case UpdateShipmentNotes => ShipmentRead in granted && ShipmentUpdate in granted
  }

  lemma NamedPermissionsDecide(route: Route, granted: set<Permission>)
    ensures Suffices(route, granted) <==> IsAllowed(route, granted)
  {
    var required := RequiredPermissions(route);
    assert AllGranted(required, granted) <==> forall i :: 0 <= i < |required| ==> required[i] in granted;
  }

  predicate IsToolNode(n: Node) {
    !n.Prepare? && !n.Plan? && !n.Authorize?
  }

  lemma AuthorizePath(svc: Services, st: AgentState, d: Planner.Decision)
    requires Executable(d) && Carries(st, st.question, d)
    ensures var path := PathFrom(Authorize, st, svc);
            if IsAllowed(d.route, svc.granted) then |path| > 1 && IsToolNode(path[1]) else path == [Authorize]
  {
    var next := AuthorizeNode(st, svc).state;
    if IsAllowed(d.route, svc.granted) {
      var e := AuthorizationEdges(Chosen(d.route));
      assert EdgeFrom(Authorize, next) == e && e.To? && IsToolNode(e.node);
    } else {
      assert EdgeFrom(Authorize, next) == End;
    }
  }

  /**
   A run that is carried out touches a tool if and only if its role was granted the permissions its route names; a
   denied run answers so, and neither continues nor proposes anything.
   */
  lemma DeniedRunsTouchNoTool(svc: Services, question: string, continuation: Option<Continuation>)
    requires Continuable(continuation) && !(continuation.Some? && Text.Strip(question) == "")
    requires Intent(svc, question, continuation).Some?
    ensures var d, path := Intent(svc, question, continuation).value, Path(svc, question, continuation);
            && ((exists n :: n in path && IsToolNode(n)) <==> Suffices(d.route, svc.granted))
            && (!Suffices(d.route, svc.granted) ==>
                  Execute(svc, question, continuation) == Finished(AgentResult(NotAuthorized, None, None)))
  {
    GraphMeansReply(svc, question, continuation);
    IntentIsExecutable(svc, question, continuation);
    var d := Intent(svc, question, continuation).value;
    NamedPermissionsDecide(d.route, svc.granted);
    var start, path := InitialState(question, continuation), Path(svc, question, continuation);
    if continuation.Some? {
      var st := PrepareNode(start).state;
      AuthorizePath(svc, st, d);
      assert path == [Prepare] + PathFrom(Authorize, st, svc);
      ToolsAfterPrefix(path, PathFrom(Authorize, st, svc), IsAllowed(d.route, svc.granted));
    } else {
      var cleared := PrepareNode(start).state;
      assert PlanNode(cleared, svc) == Next(Planned(cleared, d));
      var st := Planned(cleared, d);
      AuthorizePath(svc, st, d);
      assert PathFrom(Plan, cleared, svc) == [Plan] + PathFrom(Authorize, st, svc);
      assert path == [Prepare] + PathFrom(Plan, cleared, svc);
      ToolsAfterPrefix(path, PathFrom(Authorize, st, svc), IsAllowed(d.route, svc.granted));
    }
  }

  lemma ToolsAfterPrefix(path: seq<Node>, rest: seq<Node>, allowed: bool)
    requires path == [Prepare] + rest || path == [Prepare] + ([Plan] + rest)
    requires if allowed then |rest| > 1 && IsToolNode(rest[1]) else rest == [Authorize]
    ensures (exists n :: n in path && IsToolNode(n)) <==> allowed
  {
    if allowed {
      assert rest[1] in path;
    }
  }

  /** Confirming checks exactly the permissions the proposing route was granted. */
  lemma ConfirmationRechecksRoute(kind: ActionKind, granted: set<Permission>)
    ensures var route := if kind.TransitionStatus? then TransitionShipmentStatus else UpdateShipmentNotes;
            && (MayConfirm(kind, granted) <==> IsAllowed(route, granted))
            && (MayConfirm(kind, granted) <==> Suffices(route, granted))
  {
    NamedPermissionsDecide(TransitionShipmentStatus, granted);
    NamedPermissionsDecide(UpdateShipmentNotes, granted);
  }

  // ---- what is carried out ----

  predicate Accepts(svc: Services, attempt: nat) {
    svc.planned(attempt).Answered? && Planner.Plan(svc.planned(attempt).payload).Ok?
  }

  predicate Rejects(svc: Services, attempt: nat) {
    svc.planned(attempt).Answered? && Planner.Plan(svc.planned(attempt).payload).Err?
  }

  /** The decision of an accepted attempt. */
  function DecisionOf(svc: Services, attempt: nat): (d: Planner.Decision)
    requires Accepts(svc, attempt)
    ensures Planner.ValidDecision(d)
  {
    Planner.PlannedIsValid(svc.planned(attempt).payload);
    Planner.Plan(svc.planned(attempt).payload).value
  }

  /**
   A fresh run carries out the first attempt the planner accepts, of two; if it rejects both, the model answers the
   question directly, and if the model fails in an attempt that is made, so does the run.
   */
  lemma FreshRunsCarryOutThePlan(svc: Services, question: string)
    ensures Accepts(svc, 1) ==> Execute(svc, question, None) == Reply(svc, question, DecisionOf(svc, 1))
    ensures Rejects(svc, 1) && Accepts(svc, 2) ==>
              Execute(svc, question, None) == Reply(svc, question, DecisionOf(svc, 2))
    ensures Rejects(svc, 1) && Rejects(svc, 2) ==> Execute(svc, question, None) == Generated(svc, question, None)
    ensures svc.planned(1).ProviderFailed? || (Rejects(svc, 1) && svc.planned(2).ProviderFailed?) ==>
              Execute(svc, question, None) == Outcome.Failed
  {
    GraphMeansReply(svc, question, None);
    AttemptsDecide(svc);
  }

  lemma AttemptsDecide(svc: Services)
    ensures Accepts(svc, 1) ==> Decide(svc, 1) == Some(DecisionOf(svc, 1))
    ensures Rejects(svc, 1) && Accepts(svc, 2) ==> Decide(svc, 1) == Some(DecisionOf(svc, 2))
    ensures Rejects(svc, 1) && Rejects(svc, 2) ==>
              Decide(svc, 1) == Some(Planner.Decision(DirectAnswer, None, [], None, None))
    ensures svc.planned(1).ProviderFailed? || (Rejects(svc, 1) && svc.planned(2).ProviderFailed?) ==>
              Decide(svc, 1) == None
  {
    assert Rejects(svc, 1) ==> Decide(svc, 1) == Decide(svc, 2);
    assert Rejects(svc, 2) ==> Decide(svc, 2) == Decide(svc, 3);
  }

  /** A continued run carries out the continued route on what was replied, whatever the planner would say. */
  lemma ContinuedRunsCarryOutTheRoute(svc: Services, reply: string, asked: Continuation)
    requires IsContinuationRoute(asked.route) && exists i :: 0 <= i < |reply| && !Text.IsSpace(reply[i])
    ensures Execute(svc, reply, Some(asked))
            == Reply(svc, reply, Planner.Decision(asked.route, Some(Text.Strip(reply)), [], None, None))
  {
    StripsToNothing(reply);
    GraphMeansReply(svc, reply, Some(asked));
  }

  // ---- what each permission guards ----

  lemma {:induction false} SameAttemptsSameDecision(a: Services, b: Services, attempt: nat)
    requires a.planned == b.planned
    ensures Decide(a, attempt) == Decide(b, attempt)
    decreases 3 - attempt
  {
    if attempt < 3 {
      SameAttemptsSameDecision(a, b, attempt + 1);
    }
  }

  lemma SameMeaning(a: Services, b: Services, question: string, continuation: Option<Continuation>)
    requires Continuable(continuation) && a.planned == b.planned
    requires forall d :: Executable(d) ==> Reply(a, question, d) == Reply(b, question, d)
    ensures Execute(a, question, continuation) == Execute(b, question, continuation)
  {
    GraphMeansReply(a, question, continuation);
    GraphMeansReply(b, question, continuation);
    SameAttemptsSameDecision(a, b, 1);
    if Intent(a, question, continuation).Some? {
      IntentIsExecutable(a, question, continuation);
    }
  }

  /** Without the permission to read documents, no run depends on what the documents say. */
  lemma DocumentsNeedDocumentRead(svc: Services, question: string, continuation: Option<Continuation>,
                                  documents: string -> Option<string>)
    requires Continuable(continuation) && DocumentRead !in svc.granted
    ensures Execute(svc.(documents := documents), question, continuation) == Execute(svc, question, continuation)
  {
    var other := svc.(documents := documents);
    forall d | Executable(d) ensures Reply(other, question, d) == Reply(svc, question, d) {
      DocumentsAreGuarded(svc, question, d, documents);
    }
    SameMeaning(other, svc, question, continuation);
  }

  lemma DocumentsAreGuarded(svc: Services, question: string, d: Planner.Decision, documents: string -> Option<string>)
    requires Executable(d) && DocumentRead !in svc.granted
    ensures Reply(svc.(documents := documents), question, d) == Reply(svc, question, d)
  {
    if d.route.RetrieveContext? {
      assert DocumentRead in RequiredPermissions(RetrieveContext);
    } else {
      OtherRoutesIgnoreDocuments(svc, question, d, documents);
    }
  }

  lemma OtherRoutesIgnoreDocuments(svc: Services, question: string, d: Planner.Decision,
                                   documents: string -> Option<string>)
    requires Executable(d) && !d.route.RetrieveContext?
    ensures Reply(svc.(documents := documents), question, d) == Reply(svc, question, d)
  {
    var other := svc.(documents := documents);
    if d.route.GetShipments? {
      assert CanReportAll(other, d.identifiers) == CanReportAll(svc, d.identifiers);
      if CanReportAll(svc, d.identifiers) {
        assert ReportsOn(other, d.identifiers) == ReportsOn(svc, d.identifiers);
      }
    }
  }

  /** Without the permission to read shipments, no run depends on any shipment: not even on whether it exists. */
  lemma ShipmentsNeedShipmentRead(svc: Services, question: string, continuation: Option<Continuation>,
                                  resolved: string -> Resolution, shipment: ShipmentId -> Option<Shipment>,
                                  summary: ShipmentId -> Option<string>, analysis: ShipmentId -> Option<string>)
    requires Continuable(continuation) && ShipmentRead !in svc.granted
    ensures Execute(svc.(resolved := resolved, shipment := shipment, summary := summary, analysis := analysis),
                    question, continuation)
            == Execute(svc, question, continuation)
  {
    var other := svc.(resolved := resolved, shipment := shipment, summary := summary, analysis := analysis);
    forall d | Executable(d) ensures Reply(other, question, d) == Reply(svc, question, d) {
      if !d.route.DirectAnswer? && !d.route.RetrieveContext? {
        assert ShipmentRead in RequiredPermissions(d.route);
      }
    }
    SameMeaning(other, svc, question, continuation);
  }

  /** Without the permission to read shipment events, no run depends on a summary or an analysis of them. */
  lemma TimelinesNeedEventRead(svc: Services, question: string, continuation: Option<Continuation>,
                               summary: ShipmentId -> Option<string>, analysis: ShipmentId -> Option<string>)
    requires Continuable(continuation) && ShipmentEventRead !in svc.granted
    ensures Execute(svc.(summary := summary, analysis := analysis), question, continuation)
            == Execute(svc, question, continuation)
  {
    var other := svc.(summary := summary, analysis := analysis);
    forall d | Executable(d) ensures Reply(other, question, d) == Reply(svc, question, d) {
      if d.route.SummarizeShipment? || d.route.AnalyzeShipmentOperations? {
        assert ShipmentEventRead in RequiredPermissions(d.route);
      } else {
        OtherRoutesIgnoreTimelines(svc, question, d, summary, analysis);
      }
    }
    SameMeaning(other, svc, question, continuation);
  }

  lemma OtherRoutesIgnoreTimelines(svc: Services, question: string, d: Planner.Decision,
                                   summary: ShipmentId -> Option<string>, analysis: ShipmentId -> Option<string>)
    requires Executable(d) && !d.route.SummarizeShipment? && !d.route.AnalyzeShipmentOperations?
    ensures Reply(svc.(summary := summary, analysis := analysis), question, d) == Reply(svc, question, d)
  {
    var other := svc.(summary := summary, analysis := analysis);
    if d.route.GetShipments? {
      assert CanReportAll(other, d.identifiers) == CanReportAll(svc, d.identifiers);
      if CanReportAll(svc, d.identifiers) {
        assert ReportsOn(other, d.identifiers) == ReportsOn(svc, d.identifiers);
      }
    }
  }

  /** A run is answered with a denial exactly if the named permissions of the route it carries out are missing. */
  lemma DeniedExactlyWhenMissing(svc: Services, question: string, d: Planner.Decision)
    requires Executable(d)
    ensures Reply(svc, question, d) == Finished(AgentResult(NotAuthorized, None, None))
            <==> !Suffices(d.route, svc.granted)
  {
    NamedPermissionsDecide(d.route, svc.granted);
  }

  // ---- proposals ----

  lemma WellFormedAsksForChange(p: Proposal)
    requires WellFormedProposal(p)
    ensures AsksForChange(p)
  {
    match p.kind
    case TransitionStatus => TransitionsClimb(p.expectedStatus, p.targetStatus.value);
    case UpdateNotes => Text.StripKeepsNormal(p.newNotes.value);
  }

  /**
   A proposal comes only out of a fresh decision for a write route, with all of the route's permissions granted, on
   the one shipment its identifier resolved to; it is well formed and its confirmation message is the answer.
   */
  lemma ProposalsAreEarned(svc: Services, question: string, continuation: Option<Continuation>)
    requires Continuable(continuation) && Execute(svc, question, continuation).Finished?
    requires Execute(svc, question, continuation).result.proposal.Some?
    ensures continuation.None? && Decide(svc, 1).Some? && Planner.ValidDecision(Decide(svc, 1).value)
    ensures var d, r := Decide(svc, 1).value, Execute(svc, question, continuation).result;
            && IsWriteRoute(d.route) && Suffices(d.route, svc.granted)
            && d.identifier.Some? && svc.resolved(d.identifier.value) == Found(r.proposal.value.shipment)
            && svc.shipment(r.proposal.value.shipment).Some?
            && (r.proposal.value.kind.TransitionStatus? <==> d.route.TransitionShipmentStatus?)
            && WellFormedProposal(r.proposal.value)
            && r.answer == ConfirmationRequest(r.proposal.value.summary) && r.continuation.None?
  {
    GraphMeansReply(svc, question, continuation);
    IntentIsExecutable(svc, question, continuation);
    if continuation.None? {
      DecisionsAreExecutable(svc, 1);
      NamedPermissionsDecide(Decide(svc, 1).value.route, svc.granted);
    }
  }

  /** Every result the agent hands back meets what the protocol takes for granted. */
  lemma ResultsAreBacked(svc: Services, question: string, continuation: Option<Continuation>)
    requires Continuable(continuation) && Execute(svc, question, continuation).Finished?
    ensures Backed(Execute(svc, question, continuation).result, svc.granted)
  {
    var r := Execute(svc, question, continuation).result;
    GraphMeansReply(svc, question, continuation);
    IntentIsExecutable(svc, question, continuation);
    if r.proposal.Some? {
      ProposalsAreEarned(svc, question, continuation);
      WellFormedAsksForChange(r.proposal.value);
      ConfirmationRechecksRoute(r.proposal.value.kind, svc.granted);
    }
  }

  predicate PreparedRun(w: World, t: TxId) {
    var v := Protocol.Prepare(w, t);
    t in v.txs && v.txs[t].pc.Running? && Continuable(v.txs[t].pc.continuation)
  }

  lemma PreparedTurnRuns(w: World, t: TxId)
    requires t in w.txs && w.txs[t].pc.Preparing? && t in Protocol.Prepare(w, t).txs
    ensures PreparedRun(w, t)
  {
  }

  /** So a prepared turn whose run finishes goes on to propose or to complete, with the result as it is. */
  lemma FinishedRunsGoOn(w: World, t: TxId, svc: Services)
    requires t in w.txs && w.txs[t].pc.Preparing? && t in Protocol.Prepare(w, t).txs
    ensures PreparedRun(w, t)
    ensures var v := Protocol.Prepare(w, t);
            && var outcome := Execute(svc, v.txs[t].pc.question, v.txs[t].pc.continuation);
            (outcome.Finished? ==>
               && t in RunAgent(v, t, svc.granted, outcome.result).txs
               && RunAgent(v, t, svc.granted, outcome.result).txs[t].pc
                  == if outcome.result.proposal.Some? then Proposing(outcome.result) else Completing(outcome.result))
  {
    PreparedTurnRuns(w, t);
    var v := Protocol.Prepare(w, t);
    var outcome := Execute(svc, v.txs[t].pc.question, v.txs[t].pc.continuation);
    if outcome.Finished? {
      ResultsAreBacked(svc, v.txs[t].pc.question, v.txs[t].pc.continuation);
    }
  }

  /**
   Notes the planner accepted are proposed word for word: once the shipment is found, the only reason left to
   refuse them is that the shipment has those notes already.
   */
  lemma PlannedNotesAreProposed(svc: Services, question: string, id: ShipmentId)
    requires Decide(svc, 1).Some? && Decide(svc, 1).value.route.UpdateShipmentNotes?
    requires Suffices(UpdateShipmentNotes, svc.granted) && svc.shipment(id).Some?
    requires Decide(svc, 1).value.identifier.Some? && svc.resolved(Decide(svc, 1).value.identifier.value) == Found(id)
    ensures var notes, outcome := Decide(svc, 1).value.notes, Execute(svc, question, None);
            && notes.Some? && outcome.Finished?
            && if svc.shipment(id).value.notes == notes
               then outcome.result == AgentResult(ProposalRefused(NotesUnchanged), None, None)
               else outcome.result.proposal.Some? && outcome.result.proposal.value.newNotes == notes
  {
    var d := Decide(svc, 1).value;
    DecisionsAreExecutable(svc, 1);
    NamedPermissionsDecide(UpdateShipmentNotes, svc.granted);
    GraphMeansReply(svc, question, None);
    NormalNotesAreProposedUnchanged(id, d.identifier.value, svc.shipment(id), d.notes.value);
  }

  // ---- clarifications ----

  /**
   A finished run asks back, leaving a continuation, if and only if an authorized single-shipment read found its
   identifier ambiguous; the continuation holds that route and that identifier.
   */
  lemma AsksBackExactlyWhenAmbiguous(svc: Services, question: string, continuation: Option<Continuation>)
    requires Continuable(continuation) && Execute(svc, question, continuation).Finished?
    ensures Intent(svc, question, continuation).Some?
    ensures var d, r := Intent(svc, question, continuation).value, Execute(svc, question, continuation).result;
            && (r.continuation.Some? <==>
                  && Suffices(d.route, svc.granted) && IsContinuationRoute(d.route)
                  && d.identifier.Some? && svc.resolved(d.identifier.value).Ambiguous?)
            && (r.continuation.Some? ==>
                  r.continuation == Some(Continuation(d.route, d.identifier.value)) && r.proposal.None?)
  {
    GraphMeansReply(svc, question, continuation);
    IntentIsExecutable(svc, question, continuation);
    if Intent(svc, question, continuation).Some? {
      NamedPermissionsDecide(Intent(svc, question, continuation).value.route, svc.granted);
    }
  }

  lemma ContinuedRunsProposeNothing(svc: Services, reply: string, asked: Option<Continuation>)
    requires Continuable(asked) && asked.Some? && Text.Strip(reply) != ""
    ensures Execute(svc, reply, asked) != GuardTripped
    ensures Execute(svc, reply, asked).Finished? ==> Execute(svc, reply, asked).result.proposal.None?
  {
    GraphMeansReply(svc, reply, asked);
    IntentIsExecutable(svc, reply, asked);
  }

  /**
   The reply to a clarification runs the very route that asked, on the replied identifier, without the planner, and
   can propose nothing.
   */
  lemma ReplyResumesTheRoute(svc: Services, question: string, continuation: Option<Continuation>, later: Services,
                             reply: string)
    requires Continuable(continuation) && Execute(svc, question, continuation).Finished?
    requires Execute(svc, question, continuation).result.continuation.Some?
    requires Text.Strip(reply) != ""
    ensures var asked := Execute(svc, question, continuation).result.continuation;
            && Continuable(asked)
            && Plan !in Path(later, reply, asked)
            && Intent(later, reply, asked).Some?
            && Intent(later, reply, asked).value.route == Intent(svc, question, continuation).value.route
            && Intent(later, reply, asked).value.identifier == Some(Text.Strip(reply))
            && Execute(later, reply, asked) != GuardTripped
            && (Execute(later, reply, asked).Finished? ==> Execute(later, reply, asked).result.proposal.None?)
  {
    AsksBackExactlyWhenAmbiguous(svc, question, continuation);
    var asked := Execute(svc, question, continuation).result.continuation;
    PlansExactlyWhenFresh(later, reply, asked);
    ContinuedRunsProposeNothing(later, reply, asked);
  }
}
