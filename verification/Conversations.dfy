/** Stored conversations and the continuation a clarification leaves behind. */
module Conversations {
  import opened Prelude
  import opened Authorization
  import opened Shipments
  import opened Actions
  import Text

  const MAX_CONTEXT_MESSAGES := 20

  /** The default title, or the title built from a conversation's first question. */
  datatype Title = DefaultTitle | TitleOf(question: string)

  function TitleText(title: Title): string {
    match title
    case DefaultTitle => "New conversation"
    case TitleOf(question) => Text.BuildTitle(question)
  }

  datatype Role = User | Assistant

  /** The text of a message; the fixed wording of the generated ones is not spelled out. */
  datatype Body =
    | Words(text: string)
    | ConfirmationRequest(summary: string)
    | ProposalRefused(reason: Rejection)
    | NotAuthorized
    | ShipmentNotFoundFor(identifier: string)
    | ShipmentAmbiguousFor(identifier: string, repeatRequest: bool)
    | ActionResult(outcome: ResultSummary)
    | ActionCancelled(summary: string)

  datatype Message = Message(role: Role, body: Body)

  datatype Continuation = Continuation(route: Route, originalIdentifier: string)

  datatype ContinuationKind = ShipmentSelection | UnknownKind

  /** The three nullable columns a continuation is stored in. */
  datatype ContinuationColumns =
    ContinuationColumns(kind: Option<ContinuationKind>, route: Option<Route>, originalIdentifier: Option<string>)

  const NO_CONTINUATION := ContinuationColumns(None, None, None)

  datatype Conversation = Conversation(
    owner: Owner,
    title: Title,
    deleted: bool,
    continuation: ContinuationColumns,
    messages: seq<Message>
  )

  function StoreContinuation(c: Option<Continuation>): ContinuationColumns {
    match c
    case None => NO_CONTINUATION
    case Some(c) => ContinuationColumns(Some(ShipmentSelection), Some(c.route), Some(c.originalIdentifier))
  }

  /** Reading the columns back; anything unexpected reads as no continuation. */
  function BuildContinuation(columns: ContinuationColumns): (c: Option<Continuation>)
    ensures c.Some? ==> IsContinuationRoute(c.value.route)
  {
    if columns.kind != Some(ShipmentSelection) then None
    else if columns.route.None? || columns.originalIdentifier.None? then None
    else if !IsContinuationRoute(columns.route.value) then None
    else Some(Continuation(columns.route.value, columns.originalIdentifier.value))
  }

  /** Storing then loading returns the continuation, exactly for the routes that may be continued. */
  lemma ContinuationRoundTrip(c: Option<Continuation>)
    ensures BuildContinuation(StoreContinuation(c)) == c
            <==> (c.Some? ==> IsContinuationRoute(c.value.route))
  {
  }

  function CountRole(messages: seq<Message>, role: Role): nat {
    if messages == [] then 0
    else CountRole(messages[..|messages| - 1], role) + (if messages[|messages| - 1].role == role then 1 else 0)
  }

  lemma {:induction false} CountRoleConcat(a: seq<Message>, b: seq<Message>, role: Role)
    ensures CountRole(a + b, role) == CountRole(a, role) + CountRole(b, role)
  {
    if b == [] {
      assert a + b == a;
    } else {
      assert (a + b)[..|a + b| - 1] == a + b[..|b| - 1];
      CountRoleConcat(a, b[..|b| - 1], role);
    }
  }
}
