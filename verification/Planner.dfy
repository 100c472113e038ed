/** The planner's reading of untrusted model output: a validating parser into decisions. */
module Planner {
  import opened Prelude
  import opened Authorization
  import opened Shipments
  import Text

  const MIN_SHIPMENTS := 2
  const MAX_SHIPMENTS := 5

  /** Decoded JSON values, as far as the validators tell them apart. */
  datatype Json = Null | Str(text: string) | List(items: seq<Json>) | Other

  /** The fields the planner looks up; a missing field reads as null. */
  datatype Payload = Payload(route: Json, identifier: Json, identifiers: Json, targetStatus: Json, notes: Json)

  datatype Decision = Decision(
    route: Route,
    identifier: Option<string>,
    identifiers: seq<string>,
    targetStatus: Option<ShipmentStatus>,
    notes: Option<string>
  )

  datatype PlanningError =
    | NoJsonObject
    | UnsupportedRoute
    | IdentifierRequired
    | IdentifiersRequired
    | IdentifierNotString
    | IdentifierEmpty
    | IdentifierCount
    | IdentifiersNotUnique
    | TargetRequired
    | TargetUnsupported
    | NotesRequired
    | NotesBlank
    | NotesOverlong

  function RouteName(route: Route): string {
    match route
    case DirectAnswer => "direct_answer"
    case GetShipment => "get_shipment"
    case GetShipments => "get_shipments"
    case SummarizeShipment => "summarize_shipment"
    case AnalyzeShipmentOperations => "analyze_shipment_operations"
    case RetrieveContext => "retrieve_context"
    case TransitionShipmentStatus => "transition_shipment_status"
    case UpdateShipmentNotes => "update_shipment_notes"
  }

  function RouteNamed(name: string): (r: Option<Route>)
    ensures r.Some? ==> RouteName(r.value) == name
  {
    if name == RouteName(DirectAnswer) then Some(DirectAnswer)
    else if name == RouteName(GetShipment) then Some(GetShipment)
    else if name == RouteName(GetShipments) then Some(GetShipments)
    else if name == RouteName(SummarizeShipment) then Some(SummarizeShipment)
    else if name == RouteName(AnalyzeShipmentOperations) then Some(AnalyzeShipmentOperations)
    else if name == RouteName(RetrieveContext) then Some(RetrieveContext)
    else if name == RouteName(TransitionShipmentStatus) then Some(TransitionShipmentStatus)
    else if name == RouteName(UpdateShipmentNotes) then Some(UpdateShipmentNotes)
    else None
  }

  function StatusNamed(name: string): (r: Option<ShipmentStatus>)
    ensures r.Some? ==> StatusName(r.value) == name
  {
    if name == StatusName(Draft) then Some(Draft)
    else if name == StatusName(Ready) then Some(Ready)
    else if name == StatusName(InTransit) then Some(InTransit)
    else if name == StatusName(Delivered) then Some(Delivered)
    else if name == StatusName(Cancelled) then Some(Cancelled)
    else None
  }

  function ParseRoute(value: Json): Result<Route, PlanningError> {
    if !value.Str? then Err(UnsupportedRoute)
    else match RouteNamed(value.text)
      case None => Err(UnsupportedRoute)
      case Some(route) => Ok(route)
  }

  function ParseIdentifier(value: Json): Result<string, PlanningError> {
    if !value.Str? then Err(IdentifierRequired)
    else
      var stripped := Text.Strip(value.text);
      if stripped == "" then Err(IdentifierRequired) else Ok(stripped)
  }

  /** The items stripped, or the complaint about the first one that is not a non-blank string. */
  function StripItems(items: seq<Json>): Result<seq<string>, PlanningError> {
    if items == [] then Ok([])
    else
      var before := StripItems(items[..|items| - 1]);
      var last := items[|items| - 1];
      if before.Err? then before
      else if !last.Str? then Err(IdentifierNotString)
      else if Text.Strip(last.text) == "" then Err(IdentifierEmpty)
      else Ok(before.value + [Text.Strip(last.text)])
  }

  predicate Distinct(ids: seq<string>) {
    forall i, j :: 0 <= i < j < |ids| ==> ids[i] != ids[j]
  }

  function ParseIdentifiers(value: Json): Result<seq<string>, PlanningError> {
    if !value.List? then Err(IdentifiersRequired)
    else
      var stripped := StripItems(value.items);
      if stripped.Err? then stripped
      else if !(MIN_SHIPMENTS <= |stripped.value| <= MAX_SHIPMENTS) then Err(IdentifierCount)
      else if !Distinct(stripped.value) then Err(IdentifiersNotUnique)
      else stripped
  }

  /** The loop over the items, and the uniqueness test by the size of a set. */
  method ParseIdentifierList(value: Json) returns (r: Result<seq<string>, PlanningError>)
    ensures r == ParseIdentifiers(value)
  {
    if !value.List? {
      return Err(IdentifiersRequired);
    }
    var identifiers: seq<string> := [];
    var i := 0;
    while i < |value.items|
      invariant 0 <= i <= |value.items|
      invariant StripItems(value.items[..i]) == Ok(identifiers)
    {
      assert value.items[..i + 1][..i] == value.items[..i];
      var item := value.items[i];
      if !item.Str? {
        StripItemsFails(value.items, i + 1);
        return Err(IdentifierNotString);
      }
      var identifier := Text.Strip(item.text);
      if identifier == "" {
        StripItemsFails(value.items, i + 1);
        return Err(IdentifierEmpty);
      }
      identifiers := identifiers + [identifier];
      i := i + 1;
    }
    assert value.items[..i] == value.items;
    if !(MIN_SHIPMENTS <= |identifiers| <= MAX_SHIPMENTS) {
      return Err(IdentifierCount);
    }
    var unique := set id | id in identifiers;
    DistinctBySize(identifiers);
    if |unique| != |identifiers| {
      return Err(IdentifiersNotUnique);
    }
    return Ok(identifiers);
  }

  /** A complaint about a prefix of the items is the complaint about all of them. */
  lemma {:induction false} StripItemsFails(items: seq<Json>, n: nat)
    requires n <= |items| && StripItems(items[..n]).Err?
    ensures StripItems(items) == StripItems(items[..n])
  {
    if n == |items| {
      assert items[..n] == items;
    } else {
      assert items[..|items| - 1][..n] == items[..n];
      StripItemsFails(items[..|items| - 1], n);
    }
  }

  lemma {:induction false} DistinctBySize(ids: seq<string>)
    ensures Distinct(ids) <==> |set id | id in ids| == |ids|
    ensures |set id | id in ids| <= |ids|
  {
    if ids != [] {
      var front, last := ids[..|ids| - 1], ids[|ids| - 1];
      DistinctBySize(front);
      var all, some := set id | id in ids, set id | id in front;
      assert all == some + {last};
      if last in front {
        var k :| 0 <= k < |front| && front[k] == last;
        assert ids[k] == ids[|ids| - 1];
        assert all == some;
      } else {
        assert |all| == |some| + 1;
        if Distinct(front) {
          forall i, j | 0 <= i < j < |ids| ensures ids[i] != ids[j] {
            assert ids[i] == front[i];
          }
        }
        if Distinct(ids) {
          forall i, j | 0 <= i < j < |front| ensures front[i] != front[j] {
            assert ids[i] != ids[j];
          }
        }
      }
    }
  }

  function ParseTarget(value: Json): Result<ShipmentStatus, PlanningError> {
    if !value.Str? then Err(TargetRequired)
    else match StatusNamed(Text.Strip(value.text))
      case None => Err(TargetUnsupported)
      case Some(status) => Ok(status)
  }

  function ParseNotes(value: Json): Result<string, PlanningError> {
    if !value.Str? then Err(NotesRequired)
    else
      var notes := Text.Normalize(value.text);
      if notes == "" then Err(NotesBlank)
      else if |notes| > Text.MAX_NOTES_LENGTH then Err(NotesOverlong)
      else Ok(notes)
  }

  /** The fields a route needs, validated. */
  function PlanRoute(route: Route, p: Payload): Result<Decision, PlanningError> {
    if route.DirectAnswer? || route.RetrieveContext? then Ok(Decision(route, None, [], None, None))
    else if route.GetShipments? then
      match ParseIdentifiers(p.identifiers)
      case Err(e) => Err(e)
      case Ok(ids) => Ok(Decision(route, None, ids, None, None))
    else
      match ParseIdentifier(p.identifier)
      case Err(e) => Err(e)
      case Ok(id) =>
        if route.TransitionShipmentStatus? then
          match ParseTarget(p.targetStatus)
          case Err(e) => Err(e)
          case Ok(target) => Ok(Decision(route, Some(id), [], Some(target), None))
        else if route.UpdateShipmentNotes? then
          match ParseNotes(p.notes)
          case Err(e) => Err(e)
          case Ok(notes) => Ok(Decision(route, Some(id), [], None, Some(notes)))
        else Ok(Decision(route, Some(id), [], None, None))
  }

  /** Reads a decoded payload (None: the content held no JSON object) into a decision. */
  function Plan(payload: Option<Payload>): Result<Decision, PlanningError> {
    if payload.None? then Err(NoJsonObject)
    else
      match ParseRoute(payload.value.route)
      case Err(e) => Err(e)
      case Ok(route) => PlanRoute(route, payload.value)
  }

  // ---- the decisions that can come out ----

  predicate IsIdentifier(id: string) {
    id != "" && Text.Strip(id) == id
  }

  predicate NoIdentifiers(d: Decision) {
    d.identifier.None? && d.identifiers == []
  }

  predicate OneIdentifier(d: Decision) {
    d.identifier.Some? && IsIdentifier(d.identifier.value) && d.identifiers == []
  }

  predicate SeveralIdentifiers(d: Decision) {
    && d.identifier.None?
    && MIN_SHIPMENTS <= |d.identifiers| <= MAX_SHIPMENTS
    && Distinct(d.identifiers)
    && forall i :: 0 <= i < |d.identifiers| ==> IsIdentifier(d.identifiers[i])
  }

  predicate ValidDecision(d: Decision) {
    && (d.targetStatus.Some? <==> d.route.TransitionShipmentStatus?)
    && (d.notes.Some? <==> d.route.UpdateShipmentNotes?)
    && (d.notes.Some? ==> 0 < |d.notes.value| <= Text.MAX_NOTES_LENGTH && Text.IsNormal(d.notes.value))
    && match d.route
       case DirectAnswer => NoIdentifiers(d)
       case RetrieveContext => NoIdentifiers(d)
       case GetShipments => SeveralIdentifiers(d)
       case _ => OneIdentifier(d)
  }

  /** A payload that asks for the given decision. */
  function Encode(d: Decision): Payload {
    Payload(
      Str(RouteName(d.route)),
      if d.identifier.Some? then Str(d.identifier.value) else Null,
      List(seq(|d.identifiers|, i requires 0 <= i < |d.identifiers| => Str(d.identifiers[i]))),
      if d.targetStatus.Some? then Str(StatusName(d.targetStatus.value)) else Null,
      if d.notes.Some? then Str(d.notes.value) else Null)
  }

  lemma {:induction false} StrippedItemsAreIdentifiers(items: seq<Json>)
    requires StripItems(items).Ok?
    ensures |StripItems(items).value| == |items|
    ensures forall i :: 0 <= i < |items| ==> IsIdentifier(StripItems(items).value[i])
  {
    if items != [] {
      StrippedItemsAreIdentifiers(items[..|items| - 1]);
      Text.StrippingIsFinal(items[|items| - 1].text);
    }
  }

  lemma PlanRouteIsValid(route: Route, p: Payload)
    requires PlanRoute(route, p).Ok?
    ensures ValidDecision(PlanRoute(route, p).value)
  {
    if route.GetShipments? {
      StrippedItemsAreIdentifiers(p.identifiers.items);
    } else if !route.DirectAnswer? && !route.RetrieveContext? {
      Text.StrippingIsFinal(p.identifier.text);
      if route.UpdateShipmentNotes? {
        Text.NormalizeFixpoints(p.notes.text);
      }
    }
  }

  /** Whatever the model answers, an accepted decision is valid for its route. */
  lemma PlannedIsValid(payload: Option<Payload>)
    requires Plan(payload).Ok?
    ensures ValidDecision(Plan(payload).value)
  {
    var p := payload.value;
    PlanRouteIsValid(ParseRoute(p.route).value, p);
  }

  lemma ValidRouteIsPlanned(d: Decision)
    requires ValidDecision(d)
    ensures PlanRoute(d.route, Encode(d)) == Ok(d)
  {
    if d.targetStatus.Some? {
      StatusIsParsedBack(d.targetStatus.value);
    }
    if d.notes.Some? {
      Text.NormalizeFixpoints(d.notes.value);
    }
    EncodedItemsStripBack(Encode(d).identifiers.items, d.identifiers);
  }

  /** Every valid decision is one the planner can reach: it is parsed back from its own encoding. */
  lemma ValidIsPlanned(d: Decision)
    requires ValidDecision(d)
    ensures Plan(Some(Encode(d))) == Ok(d)
  {
    RouteIsParsedBack(d.route);
    ValidRouteIsPlanned(d);
  }

  lemma {:induction false} EncodedItemsStripBack(items: seq<Json>, ids: seq<string>)
    requires |items| == |ids| && forall i :: 0 <= i < |ids| ==> items[i] == Str(ids[i])
    requires forall i :: 0 <= i < |ids| ==> IsIdentifier(ids[i])
    ensures StripItems(items) == Ok(ids)
  {
    if items != [] {
      var n := |ids| - 1;
      EncodedItemsStripBack(items[..n], ids[..n]);
      assert items[n] == Str(ids[n]) && IsIdentifier(ids[n]);
      assert ids == ids[..n] + [ids[n]];
    }
  }

  lemma RouteIsParsedBack(route: Route)
    ensures ParseRoute(Str(RouteName(route))) == Ok(route)
  {
    var name := RouteName(route);
    assert RouteName(DirectAnswer)[0] == 'd' && RouteName(GetShipment)[0] == 'g' && RouteName(GetShipments)[0] == 'g';
    assert |RouteName(GetShipment)| == 12 && |RouteName(GetShipments)| == 13;
    assert RouteName(SummarizeShipment)[0] == 's' && RouteName(AnalyzeShipmentOperations)[0] == 'a';
    assert RouteName(RetrieveContext)[0] == 'r' && RouteName(TransitionShipmentStatus)[0] == 't';
    assert RouteName(UpdateShipmentNotes)[0] == 'u';
  }

  lemma StatusIsParsedBack(status: ShipmentStatus)
    ensures ParseTarget(Str(StatusName(status))) == Ok(status)
  {
    var name := StatusName(status);
    assert name[0] != ' ' && name[|name| - 1] != ' ';
    Text.RStripFixed(name);
    Text.LStripFixed(name);
    StatusIsNamedBack(status);
  }

  lemma StatusIsNamedBack(status: ShipmentStatus)
    ensures StatusNamed(StatusName(status)) == Some(status)
  {
    assert |StatusName(Draft)| == 5 && |StatusName(Ready)| == 5 && StatusName(Draft)[0] == 'd';
    assert StatusName(Ready)[0] == 'r' && |StatusName(InTransit)| == 10 && |StatusName(Delivered)| == 9;
    assert |StatusName(Cancelled)| == 9 && StatusName(Delivered)[0] == 'd' && StatusName(Cancelled)[0] == 'c';
  }

  // ---- exactly what is accepted ----

  /** The route's name, spelled exactly so. */
  predicate NamesRoute(value: Json, route: Route) {
    value == match route
             case DirectAnswer => Str("direct_answer")
             case GetShipment => Str("get_shipment")
             case GetShipments => Str("get_shipments")
             case SummarizeShipment => Str("summarize_shipment")
             case AnalyzeShipmentOperations => Str("analyze_shipment_operations")
             case RetrieveContext => Str("retrieve_context")
             case TransitionShipmentStatus => Str("transition_shipment_status")
             case UpdateShipmentNotes => Str("update_shipment_notes")
  }

  /** The status's name, possibly surrounded by whitespace. */
  predicate NamesStatus(value: Json, status: ShipmentStatus) {
    value.Str? && Text.Strip(value.text) == match status
                                            case Draft => "draft"
                                            case Ready => "ready"
                                            case InTransit => "in_transit"
                                            case Delivered => "delivered"
                                            case Cancelled => "cancelled"
  }

  /** A text that is `id`, which is not empty, and whitespace around it. */
  predicate NamesShipment(value: Json, id: string) {
    value.Str? && Text.Strip(value.text) == id != ""
  }

  predicate ListsShipments(value: Json, ids: seq<string>) {
    && value.List? && |value.items| == |ids| && 2 <= |ids| <= 5
    && (forall i :: 0 <= i < |ids| ==> NamesShipment(value.items[i], ids[i]))
    && (forall i, j :: 0 <= i < j < |ids| ==> ids[i] != ids[j])
  }

  /** Notes whose words are those of the text, single blanks between them, at most 2000 characters. */
  predicate GivesNotes(value: Json, notes: string) {
    value.Str? && notes == Text.Normalize(value.text) && 0 < |notes| <= 2000
  }

  predicate GivesTarget(value: Json, target: Option<ShipmentStatus>) {
    target.Some? && NamesStatus(value, target.value)
  }

  /** The fields of the decision are those its route needs, read from the payload, and no other. */
  predicate ReadsFields(p: Payload, d: Decision) {
    if d.route == DirectAnswer || d.route == RetrieveContext then d == Decision(d.route, None, [], None, None)
    else if d.route == GetShipments then
      ListsShipments(p.identifiers, d.identifiers) && d == Decision(GetShipments, None, d.identifiers, None, None)
    else
      && d.identifier.Some? && NamesShipment(p.identifier, d.identifier.value) && d.identifiers == []
      && (if d.route == TransitionShipmentStatus then GivesTarget(p.targetStatus, d.targetStatus)
          else d.targetStatus.None?)
      && (if d.route == UpdateShipmentNotes then d.notes.Some? && GivesNotes(p.notes, d.notes.value)
          else d.notes.None?)
  }

  lemma RouteIsRead(value: Json, route: Route)
    ensures ParseRoute(value) == Ok(route) <==> NamesRoute(value, route)
  {
    RouteIsParsedBack(route);
  }

  lemma TargetIsRead(value: Json, status: ShipmentStatus)
    ensures ParseTarget(value) == Ok(status) <==> NamesStatus(value, status)
  {
    StatusIsNamedBack(status);
  }

  lemma {:induction false} ItemsAreRead(items: seq<Json>, ids: seq<string>)
    requires |items| == |ids|
    ensures StripItems(items) == Ok(ids) <==> forall i :: 0 <= i < |ids| ==> NamesShipment(items[i], ids[i])
  {
    if items != [] {
      var n := |items| - 1;
      ItemsAreRead(items[..n], ids[..n]);
      assert ids == ids[..n] + [ids[n]];
      if StripItems(items) == Ok(ids) {
        var before := StripItems(items[..n]).value;
        assert ids == before + [Text.Strip(items[n].text)];
        assert ids[..n] == before;
      }
    }
  }

  lemma ListIsRead(value: Json, ids: seq<string>)
    ensures ParseIdentifiers(value) == Ok(ids) <==> ListsShipments(value, ids)
  {
    if value.List? {
      if StripItems(value.items).Ok? {
        StrippedItemsAreIdentifiers(value.items);
      }
      if |value.items| == |ids| {
        ItemsAreRead(value.items, ids);
      }
    }
  }

  lemma FieldsAreRead(p: Payload, d: Decision)
    ensures PlanRoute(d.route, p) == Ok(d) <==> ReadsFields(p, d)
  {
    ListIsRead(p.identifiers, d.identifiers);
    if d.targetStatus.Some? {
      TargetIsRead(p.targetStatus, d.targetStatus.value);
    }
  }

  /** A payload is accepted as a decision if and only if it names its route and gives exactly its fields. */
  lemma PlanReadsThePayload(p: Payload, d: Decision)
    ensures Plan(Some(p)) == Ok(d) <==> NamesRoute(p.route, d.route) && ReadsFields(p, d)
  {
    RouteIsRead(p.route, d.route);
    FieldsAreRead(p, d);
    if Plan(Some(p)) == Ok(d) {
      PlannedRouteIsNamed(p, d);
    }
  }

  lemma PlannedRouteIsNamed(p: Payload, d: Decision)
    requires Plan(Some(p)) == Ok(d)
    ensures ParseRoute(p.route) == Ok(d.route)
  {
  }
}
