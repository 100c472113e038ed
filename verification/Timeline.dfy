/** The operational analysis of a shipment's timeline: its context, six detectors, and the risk drawn from them. */
module Timeline {
  import opened Prelude
  import opened Shipments
  import opened TimeOrder

  // ---- the context ----

  datatype Context = Context(
    status: ShipmentStatus,
    origin: LocationId,
    eventCount: nat,
    latest: Option<TimelineEvent>,
    events: seq<TimelineEvent>
  )

  /** The summary tool: the recorded events in stable time order, and the last of them. */
  function Summarize(status: ShipmentStatus, origin: LocationId, recorded: seq<TimelineEvent>): Context {
    var events := SortByTime(recorded);
    Context(status, origin, |events|, if events != [] then Some(events[|events| - 1]) else None, events)
  }

  // ---- issues ----

  datatype Severity = Info | Warning | Critical

  datatype IssueCode =
    | InTransitWithoutEvents
    | StaleInTransit
    | StalledAtLocation
    | MissingTimeline
    | DeliveredWithoutDeliveredEvent
    | CancelledWithoutCancelledEvent
    | TerminalStatusRegression
    | DepartureWithoutArrival

  /** `moved` holds the two statuses a regression's message names. */
  datatype Issue = Issue(
    code: IssueCode,
    severity: Severity,
    age: Option<int>,
    moved: Option<(ShipmentStatus, ShipmentStatus)>
  )

  datatype Thresholds = Thresholds(staleAfter: int, stalledAfter: int)

  function DetectStale(limits: Thresholds, context: Context, now: int): seq<Issue> {
    if context.status != InTransit then []
    else match context.latest
      case None => [Issue(InTransitWithoutEvents, Critical, None, None)]
      case Some(latest) =>
        var age := now - latest.occurredAt;
        if age <= limits.staleAfter then [] else [Issue(StaleInTransit, Warning, Some(age), None)]
  }

  function DetectStalled(limits: Thresholds, context: Context, now: int): seq<Issue> {
    if context.status != InTransit || context.latest.None? then []
    else
      var latest := context.latest.value;
      if latest.kind != ArrivedAtLocation || latest.location.None? then []
      else
        var age := now - latest.occurredAt;
        if age <= limits.stalledAfter then [] else [Issue(StalledAtLocation, Warning, Some(age), None)]
  }

  function DetectMissingTimeline(context: Context): seq<Issue> {
    if context.eventCount > 0 || context.status == Draft then []
    else [Issue(MissingTimeline, Warning, None, None)]
  }

  function DetectMismatch(context: Context): seq<Issue> {
    match context.latest
    case None => []
    case Some(latest) =>
      if context.status == Delivered then
        if latest.status == Some(Delivered) then []
        else [Issue(DeliveredWithoutDeliveredEvent, Warning, None, None)]
      else if context.status == Cancelled then
        if latest.status == Some(Cancelled) then []
        else [Issue(CancelledWithoutCancelledEvent, Warning, None, None)]
      else []
  }

  // ---- the two scans, by what they look for ----

  predicate IsTerminal(e: TimelineEvent) {
    e.status == Some(Delivered) || e.status == Some(Cancelled)
  }

  /** The event has a status, and another one than `status`. */
  predicate Differs(e: TimelineEvent, status: Option<ShipmentStatus>) {
    e.status.Some? && e.status != status
  }

  /** The first terminal event at or after `from`, or the length. */
  function FirstTerminal(s: seq<TimelineEvent>, from: nat): (i: nat)
    requires from <= |s|
    ensures from <= i <= |s| && (i < |s| ==> IsTerminal(s[i]))
    ensures forall k :: from <= k < i ==> !IsTerminal(s[k])
    decreases |s| - from
  {
    if from == |s| || IsTerminal(s[from]) then from else FirstTerminal(s, from + 1)
  }

  /** The first event at or after `from` whose status is another one, or the length. */
  function FirstDiffering(s: seq<TimelineEvent>, status: Option<ShipmentStatus>, from: nat): (i: nat)
    requires from <= |s|
    ensures from <= i <= |s| && (i < |s| ==> Differs(s[i], status))
    ensures forall k :: from <= k < i ==> !Differs(s[k], status)
    decreases |s| - from
  {
    if from == |s| || Differs(s[from], status) then from else FirstDiffering(s, status, from + 1)
  }

  /** The first terminal event together with the first later event of another status. */
  function Regression(s: seq<TimelineEvent>): (r: Option<(nat, nat)>)
    ensures r.Some? ==> r.value.0 < r.value.1 < |s| && IsTerminal(s[r.value.0])
                        && Differs(s[r.value.1], s[r.value.0].status)
  {
    var i := FirstTerminal(s, 0);
    if i == |s| then None
    else
      var j := FirstDiffering(s, s[i].status, i + 1);
      if j == |s| then None else Some((i, j))
  }

  function DetectRegression(context: Context, now: int): seq<Issue> {
    var s := SortByTime(context.events);
    match Regression(s)
    case None => []
    case Some((i, j)) =>
      [Issue(TerminalStatusRegression, Critical, Some(now - s[j].occurredAt),
             Some((s[i].status.value, s[j].status.value)))]
  }

  ghost predicate ArrivedBefore(s: seq<TimelineEvent>, location: LocationId, n: nat)
    requires n <= |s|
  {
    exists k :: 0 <= k < n && s[k].kind == ArrivedAtLocation && s[k].location == Some(location)
  }

  /** A departure from a place that is not the origin and where nothing has arrived before. */
  ghost predicate IsUnannounced(s: seq<TimelineEvent>, origin: LocationId, j: nat)
    requires j < |s|
  {
    && s[j].kind == DepartedLocation
    && s[j].location.Some?
    && s[j].location.value != origin
    && !ArrivedBefore(s, s[j].location.value, j)
  }

  ghost function FirstUnannounced(s: seq<TimelineEvent>, origin: LocationId, from: nat): (i: nat)
    requires from <= |s|
    ensures from <= i <= |s| && (i < |s| ==> IsUnannounced(s, origin, i))
    ensures forall k :: from <= k < i ==> !IsUnannounced(s, origin, k)
    decreases |s| - from
  {
    if from == |s| || IsUnannounced(s, origin, from) then from else FirstUnannounced(s, origin, from + 1)
  }

  ghost function DetectDeparture(context: Context, now: int): seq<Issue> {
    var s := SortByTime(context.events);
    var j := FirstUnannounced(s, context.origin, 0);
    if j == |s| then [] else [Issue(DepartureWithoutArrival, Warning, Some(now - s[j].occurredAt), None)]
  }

  /** The service's scan: one pass that remembers the first terminal status. */
  method ScanForRegression(context: Context, now: int) returns (issues: seq<Issue>)
    ensures issues == DetectRegression(context, now)
  {
    var terminal: Option<ShipmentStatus> := None;
    var s := SortByTime(context.events);
    var i := 0;
    while i < |s|
      invariant 0 <= i <= |s|
      invariant terminal.None? ==> FirstTerminal(s, 0) == FirstTerminal(s, i)
      invariant terminal.Some? ==>
                  var first := FirstTerminal(s, 0);
                  && first < i && s[first].status == terminal
                  && FirstDiffering(s, terminal, first + 1) == FirstDiffering(s, terminal, i)
    {
      var status := s[i].status;
      if terminal.None? {
        if status == Some(Delivered) || status == Some(Cancelled) {
          terminal := status;
        }
      } else if status.Some? && status != terminal {
        return [Issue(TerminalStatusRegression, Critical, Some(now - s[i].occurredAt),
                      Some((terminal.value, status.value)))];
      }
      i := i + 1;
    }
    return [];
  }

  /** The service's scan: one pass with a growing set of places where something arrived. */
  method ScanForDeparture(context: Context, now: int) returns (issues: seq<Issue>)
    ensures issues == DetectDeparture(context, now)
  {
    var arrived: set<LocationId> := {};
    var s := SortByTime(context.events);
    var i := 0;
    while i < |s|
      invariant 0 <= i <= |s|
      invariant forall l :: l in arrived <==> ArrivedBefore(s, l, i)
      invariant FirstUnannounced(s, context.origin, 0) == FirstUnannounced(s, context.origin, i)
    {
      var e := s[i];
      if e.location.Some? {
        if e.kind == ArrivedAtLocation {
          arrived := arrived + {e.location.value};
        } else if e.kind == DepartedLocation && e.location.value != context.origin
                  && e.location.value !in arrived {
          return [Issue(DepartureWithoutArrival, Warning, Some(now - e.occurredAt), None)];
        }
      }
      i := i + 1;
    }
    return [];
  }

  /** All issues, detector by detector. */
  ghost function Analyze(limits: Thresholds, context: Context, now: int): seq<Issue> {
    DetectStale(limits, context, now) + DetectStalled(limits, context, now) + DetectMissingTimeline(context)
    + DetectMismatch(context) + DetectRegression(context, now) + DetectDeparture(context, now)
  }

  method Execute(limits: Thresholds, context: Context, now: int) returns (issues: seq<Issue>)
    ensures issues == Analyze(limits, context, now)
  {
    issues := [];
    issues := issues + DetectStale(limits, context, now);
    issues := issues + DetectStalled(limits, context, now);
    issues := issues + DetectMissingTimeline(context);
    issues := issues + DetectMismatch(context);
    var regression := ScanForRegression(context, now);
    issues := issues + regression;
    var departure := ScanForDeparture(context, now);
    issues := issues + departure;
  }

  // ---- the risk ----

  datatype RiskLevel = Low | Medium | High | CriticalRisk

  function HighestSeverity(issues: seq<Issue>): Severity {
    if exists i :: i in issues && i.severity.Critical? then Critical
    else if exists i :: i in issues && i.severity.Warning? then Warning
    else Info
  }

  function Weight(severity: Severity): nat {
    match severity
    case Info => 5
    case Warning => 25
    case Critical => 60
  }

  function TotalWeight(issues: seq<Issue>): nat {
    if issues == [] then 0 else TotalWeight(issues[..|issues| - 1]) + Weight(issues[|issues| - 1].severity)
  }

  function RiskScore(issues: seq<Issue>): nat {
    var total := TotalWeight(issues);
    if total < 100 then total else 100
  }

  function RiskLevelOf(issues: seq<Issue>): RiskLevel {
    if HighestSeverity(issues).Critical? then CriticalRisk
    else if RiskScore(issues) >= 50 then High
    else if RiskScore(issues) > 0 then Medium
    else Low
  }
}
