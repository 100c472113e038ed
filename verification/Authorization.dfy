/** Routes of the agent and the permissions each of them requires. */
module Authorization {

  datatype Route =
    | DirectAnswer
    | GetShipment
    | GetShipments
    | SummarizeShipment
    | AnalyzeShipmentOperations
    | RetrieveContext
    | TransitionShipmentStatus
    | UpdateShipmentNotes

  datatype Permission = ShipmentRead | ShipmentEventRead | ShipmentTransition | ShipmentUpdate | DocumentRead

  /** The routes that read exactly one shipment; only these can be continued after a clarification. */
  predicate IsContinuationRoute(route: Route) {
    route.GetShipment? || route.SummarizeShipment? || route.AnalyzeShipmentOperations?
  }

  predicate IsWriteRoute(route: Route) {
    route.TransitionShipmentStatus? || route.UpdateShipmentNotes?
  }

  function RequiredPermissions(route: Route): seq<Permission> {
    match route
    case DirectAnswer => []
    case GetShipment => [ShipmentRead]
    case GetShipments => [ShipmentRead]
    case SummarizeShipment => [ShipmentRead, ShipmentEventRead]
    case AnalyzeShipmentOperations => [ShipmentRead, ShipmentEventRead]
    case RetrieveContext => [DocumentRead]
    case TransitionShipmentStatus => [ShipmentRead, ShipmentTransition]
    case UpdateShipmentNotes => [ShipmentRead, ShipmentUpdate]
  }

  /** The answers of the permission checker for one role, as the set of codes it grants. */
  predicate AllGranted(required: seq<Permission>, granted: set<Permission>)
    ensures AllGranted(required, granted) <==> forall p :: p in required ==> p in granted
  {
    required == [] || (required[0] in granted && AllGranted(required[1..], granted))
  }

  predicate IsAllowed(route: Route, granted: set<Permission>) {
    AllGranted(RequiredPermissions(route), granted)
  }
}
