/** What the timeline analysis reports, and what its risk level says about the issues. */
module TimelineTheorems {
  import opened Prelude
  import opened Shipments
  import opened TimeOrder
  import opened Timeline

  // ---- the two scans ----

  predicate IsEnded(status: Option<ShipmentStatus>) {
    status == Some(Delivered) || status == Some(Cancelled)
  }

  /** An event of a delivered or cancelled shipment, and later in time order an event with another, non-null status. */
  ghost predicate Reverts(s: seq<TimelineEvent>, i: nat, j: nat)
    requires i < j < |s|
  {
    IsEnded(s[i].status) && s[j].status.Some? && s[j].status != s[i].status
  }

  lemma RegressionFindsReversal(s: seq<TimelineEvent>, i: nat, j: nat)
    requires i < j < |s| && Reverts(s, i, j)
    ensures Regression(s).Some?
  {
    var f := FirstTerminal(s, 0);
    assert f <= i;
    var k := if s[f].status == s[i].status then j else i;
    assert Differs(s[k], s[f].status);
  }

  /** The first terminal event, and the earliest later event that differs from it. */
  ghost predicate IsFirstReversal(s: seq<TimelineEvent>, i: nat, j: nat)
    requires i < j < |s|
  {
    && Reverts(s, i, j)
    && (forall k :: 0 <= k < i ==> !IsEnded(s[k].status))
    && (forall k :: i < k < j ==> s[k].status.None? || s[k].status == s[i].status)
  }

  ghost predicate HasReversal(s: seq<TimelineEvent>) {
    exists i: nat, j: nat :: i < j < |s| && Reverts(s, i, j)
  }

  lemma RegressionIsFound(s: seq<TimelineEvent>)
    ensures Regression(s).Some? <==> HasReversal(s)
    ensures Regression(s).Some? ==> IsFirstReversal(s, Regression(s).value.0, Regression(s).value.1)
  {
    if i: nat, j: nat :| i < j < |s| && Reverts(s, i, j) {
      RegressionFindsReversal(s, i, j);
    }
    var r := Regression(s);
    if r.Some? {
      assert Reverts(s, r.value.0, r.value.1);
    }
  }

  /**
   A regression is reported if and only if any terminal event is followed by an event of another status. The report
   names the first terminal event, and the age is that of the earliest later event differing from it.
   */
  lemma RegressionIsReported(context: Context, now: int) returns (i: nat, j: nat)
    ensures DetectRegression(context, now) != [] <==> HasReversal(SortByTime(context.events))
    ensures var s := SortByTime(context.events);
            DetectRegression(context, now) != [] ==>
              && i < j < |s| && IsFirstReversal(s, i, j)
              && DetectRegression(context, now)
                 == [Issue(TerminalStatusRegression, Critical, Some(now - s[j].occurredAt),
                           Some((s[i].status.value, s[j].status.value)))]
  {
    var s := SortByTime(context.events);
    RegressionIsFound(s);
    var r := Regression(s);
    i, j := if r.Some? then r.value.0 else 0, if r.Some? then r.value.1 else 0;
  }

  /** A departure from a known place, other than the origin, where nothing has arrived before in time order. */
  predicate LacksArrival(s: seq<TimelineEvent>, origin: LocationId, j: nat)
    requires j < |s|
  {
    && s[j].kind == DepartedLocation && s[j].location.Some? && s[j].location.value != origin
    && forall k :: 0 <= k < j ==> s[k].kind != ArrivedAtLocation || s[k].location != s[j].location
  }

  lemma UnannouncedLacksArrival(s: seq<TimelineEvent>, origin: LocationId, j: nat)
    requires j < |s|
    ensures IsUnannounced(s, origin, j) <==> LacksArrival(s, origin, j)
  {
  }

  lemma UnannouncedIsFound(s: seq<TimelineEvent>, origin: LocationId)
    ensures FirstUnannounced(s, origin, 0) < |s| <==> exists j: nat :: j < |s| && LacksArrival(s, origin, j)
    ensures forall k: nat :: k < FirstUnannounced(s, origin, 0) ==> !LacksArrival(s, origin, k)
    ensures FirstUnannounced(s, origin, 0) < |s| ==> LacksArrival(s, origin, FirstUnannounced(s, origin, 0))
  {
    var first := FirstUnannounced(s, origin, 0);
    forall j: nat | j < |s| ensures IsUnannounced(s, origin, j) <==> LacksArrival(s, origin, j) {
      UnannouncedLacksArrival(s, origin, j);
    }
  }

  /** A missing arrival is reported if and only if a departure lacks one, with the age of the first such departure. */
  lemma DepartureIsReported(context: Context, now: int)
    ensures var s := SortByTime(context.events);
            DetectDeparture(context, now) != [] <==> exists j: nat :: j < |s| && LacksArrival(s, context.origin, j)
    ensures var s := SortByTime(context.events);
            forall j: nat :: j < |s| && LacksArrival(s, context.origin, j)
                             && (forall k: nat :: k < j ==> !LacksArrival(s, context.origin, k)) ==>
                               DetectDeparture(context, now)
                               == [Issue(DepartureWithoutArrival, Warning, Some(now - s[j].occurredAt), None)]
  {
    var s := SortByTime(context.events);
    var first := FirstUnannounced(s, context.origin, 0);
    UnannouncedIsFound(s, context.origin);
    forall j: nat | j < |s| && LacksArrival(s, context.origin, j)
                    && (forall k: nat :: k < j ==> !LacksArrival(s, context.origin, k))
      ensures j == first
    {
    }
  }

  // ---- the summary's context ----

  /** The summary lists exactly the recorded events; its latest one is the last recorded of the latest moment. */
  lemma SummaryIsFaithful(status: ShipmentStatus, origin: LocationId, recorded: seq<TimelineEvent>)
    ensures var c := Summarize(status, origin, recorded);
            && multiset(c.events) == multiset(recorded) && c.eventCount == |recorded|
            && (c.latest.Some? <==> recorded != [])
            && (c.latest.Some? ==>
                  && c.latest.value in recorded
                  && (forall e :: e in recorded ==> e.occurredAt <= c.latest.value.occurredAt)
                  && var same := AtTime(recorded, c.latest.value.occurredAt);
                  same != [] && c.latest.value == same[|same| - 1])
  {
    SortIsStable(recorded);
    var s := SortByTime(recorded);
    if s != [] {
      var latest := s[|s| - 1];
      assert latest in multiset(s);
      forall e | e in recorded ensures e.occurredAt <= latest.occurredAt {
        assert e in multiset(s);
      }
      assert AtTime(s, latest.occurredAt) == AtTime(recorded, latest.occurredAt);
    }
  }

  /** Sorting the summary's events again, as both scans do, is the identity. */
  lemma ResortingSummaryIsIdentity(status: ShipmentStatus, origin: LocationId, recorded: seq<TimelineEvent>)
    ensures var c := Summarize(status, origin, recorded); SortByTime(c.events) == c.events
  {
    SortIsStable(recorded);
    SortingOrderedIsIdentity(SortByTime(recorded));
  }

  /** If no two events share a moment, the analysis does not depend on the order in which they were read. */
  lemma AnalysisIgnoresInputOrder(limits: Thresholds, status: ShipmentStatus, origin: LocationId,
                                  a: seq<TimelineEvent>, b: seq<TimelineEvent>, now: int)
    requires multiset(a) == multiset(b) && DistinctTimes(a)
    ensures Analyze(limits, Summarize(status, origin, a), now) == Analyze(limits, Summarize(status, origin, b), now)
  {
    SortIgnoresInputOrder(a, b);
  }

  // ---- risk ----

  function CountOf(issues: seq<Issue>, severity: Severity): nat {
    if issues == [] then 0
    else
      CountOf(issues[..|issues| - 1], severity) + if issues[|issues| - 1].severity == severity then 1 else 0
  }

  lemma {:induction false} WeightIsCounted(issues: seq<Issue>)
    ensures TotalWeight(issues)
            == 5 * CountOf(issues, Info) + 25 * CountOf(issues, Warning) + 60 * CountOf(issues, Critical)
  {
    if issues != [] {
      WeightIsCounted(issues[..|issues| - 1]);
    }
  }

  lemma {:induction false} CountFinds(issues: seq<Issue>, severity: Severity)
    ensures CountOf(issues, severity) > 0 <==> exists i :: i in issues && i.severity == severity
  {
    if issues != [] {
      var front, last := issues[..|issues| - 1], issues[|issues| - 1];
      CountFinds(front, severity);
      assert issues == front + [last];
      if CountOf(front, severity) > 0 {
        var i :| i in front && i.severity == severity;
        assert i in issues;
      } else if last.severity == severity {
        assert last in issues;
      }
    }
  }

  lemma {:induction false} CountConcat(a: seq<Issue>, b: seq<Issue>, severity: Severity)
    ensures CountOf(a + b, severity) == CountOf(a, severity) + CountOf(b, severity)
  {
    if b == [] {
      assert a + b == a;
    } else {
      assert (a + b)[..|a + b| - 1] == a + b[..|b| - 1];
      CountConcat(a, b[..|b| - 1], severity);
    }
  }

  function Min(a: int, b: int): int {
    if a < b then a else b
  }

  /** The score counts warnings and critical issues, and severity and level say whether there are any, and how many. */
  predicate RiskMatches(issues: seq<Issue>) {
    var warnings, criticals := CountOf(issues, Warning), CountOf(issues, Critical);
    && RiskScore(issues) == Min(25 * warnings + 60 * criticals, 100)
    && (HighestSeverity(issues) == if criticals > 0 then Critical else if warnings > 0 then Warning else Info)
    && (RiskLevelOf(issues) == Low <==> issues == [])
    && (RiskLevelOf(issues) == Medium <==> criticals == 0 && warnings == 1)
    && (RiskLevelOf(issues) == High <==> criticals == 0 && warnings >= 2)
    && (RiskLevelOf(issues) == CriticalRisk <==> criticals >= 1)
  }

  lemma RiskLevelCounts(issues: seq<Issue>)
    requires CountOf(issues, Info) == 0
    ensures RiskMatches(issues)
  {
    WeightIsCounted(issues);
    CountFinds(issues, Critical);
    CountFinds(issues, Warning);
    CountFinds(issues, Info);
    if issues != [] {
      assert issues[0] in issues;
    }
  }

  predicate DistinctCodes(issues: seq<Issue>) {
    forall i, j :: 0 <= i < j < |issues| ==> issues[i].code != issues[j].code
  }

  /** Which codes a detector can report, so that no two of them report the same one. */
  function DetectorOf(code: IssueCode): nat {
    match code
    case InTransitWithoutEvents => 0
    case StaleInTransit => 0
    case StalledAtLocation => 1
    case MissingTimeline => 2
    case DeliveredWithoutDeliveredEvent => 3
    case CancelledWithoutCancelledEvent => 3
    case TerminalStatusRegression => 4
    case DepartureWithoutArrival => 5
  }

  predicate ReportOf(issues: seq<Issue>, detector: nat) {
    |issues| <= 1 && (issues != [] ==> DetectorOf(issues[0].code) == detector)
  }

  /** The issues are listed in detector order, each detector at most once. */
  predicate Climbing(issues: seq<Issue>, bound: nat) {
    && (forall i :: 0 <= i < |issues| ==> DetectorOf(issues[i].code) < bound)
    && (forall i, j :: 0 <= i < j < |issues| ==> DetectorOf(issues[i].code) < DetectorOf(issues[j].code))
  }

  lemma ClimbOn(issues: seq<Issue>, more: seq<Issue>, detector: nat)
    requires Climbing(issues, detector) && ReportOf(more, detector)
    ensures Climbing(issues + more, detector + 1)
  {
  }

  lemma DetectorsReportOnce(limits: Thresholds, context: Context, now: int)
    ensures ReportOf(DetectStale(limits, context, now), 0) && ReportOf(DetectStalled(limits, context, now), 1)
    ensures ReportOf(DetectMissingTimeline(context), 2) && ReportOf(DetectMismatch(context), 3)
    ensures ReportOf(DetectRegression(context, now), 4) && ReportOf(DetectDeparture(context, now), 5)
  {
  }

  lemma SixClimb(a: seq<Issue>, b: seq<Issue>, c: seq<Issue>, d: seq<Issue>, e: seq<Issue>, f: seq<Issue>)
    requires ReportOf(a, 0) && ReportOf(b, 1) && ReportOf(c, 2) && ReportOf(d, 3) && ReportOf(e, 4) && ReportOf(f, 5)
    ensures Climbing(a + b + c + d + e + f, 6)
  {
    ClimbOn(a, b, 1);
    ClimbOn(a + b, c, 2);
    ClimbOn(a + b + c, d, 3);
    ClimbOn(a + b + c + d, e, 4);
    ClimbOn(a + b + c + d + e, f, 5);
  }

  lemma AnalysisClimbs(limits: Thresholds, context: Context, now: int)
    ensures DistinctCodes(Analyze(limits, context, now))
  {
    DetectorsReportOnce(limits, context, now);
    SixClimb(DetectStale(limits, context, now), DetectStalled(limits, context, now), DetectMissingTimeline(context),
             DetectMismatch(context), DetectRegression(context, now), DetectDeparture(context, now));
    ClimbingIsDistinct(Analyze(limits, context, now), 6);
  }

  lemma ClimbingIsDistinct(issues: seq<Issue>, bound: nat)
    requires Climbing(issues, bound)
    ensures DistinctCodes(issues)
  {
    forall i, j | 0 <= i < j < |issues| ensures issues[i].code != issues[j].code {
      assert DetectorOf(issues[i].code) < DetectorOf(issues[j].code);
    }
  }

  lemma AnalysisCounts(limits: Thresholds, context: Context, now: int, severity: Severity)
    ensures CountOf(Analyze(limits, context, now), severity)
            == CountOf(DetectStale(limits, context, now), severity)
               + CountOf(DetectStalled(limits, context, now), severity)
               + CountOf(DetectMissingTimeline(context), severity) + CountOf(DetectMismatch(context), severity)
               + CountOf(DetectRegression(context, now), severity) + CountOf(DetectDeparture(context, now), severity)
  {
    var a, b, c := DetectStale(limits, context, now), DetectStalled(limits, context, now),
                   DetectMissingTimeline(context);
    var d, e, f := DetectMismatch(context), DetectRegression(context, now), DetectDeparture(context, now);
    CountConcat(a, b, severity);
    CountConcat(a + b, c, severity);
    CountConcat(a + b + c, d, severity);
    CountConcat(a + b + c + d, e, severity);
    CountConcat(a + b + c + d + e, f, severity);
  }

  /** The issues, if any, are of this one severity. */
  predicate OneOf(issues: seq<Issue>, severity: Severity) {
    issues == [] || (|issues| == 1 && issues[0].severity == severity)
  }

  lemma OneIsCounted(issues: seq<Issue>, severity: Severity, counted: Severity)
    requires OneOf(issues, severity)
    ensures CountOf(issues, counted) == if issues != [] && severity == counted then 1 else 0
  {
  }

  lemma DetectorSeverities(limits: Thresholds, context: Context, now: int)
    ensures OneOf(DetectStale(limits, context, now), if context.latest.None? then Critical else Warning)
    ensures OneOf(DetectStalled(limits, context, now), Warning)
    ensures OneOf(DetectMissingTimeline(context), Warning)
    ensures OneOf(DetectMismatch(context), Warning)
    ensures OneOf(DetectRegression(context, now), Critical)
    ensures OneOf(DetectDeparture(context, now), Warning)
  {
  }

  /** Without events there is nothing to scan. */
  lemma EmptyTimelineHasNoRegression(status: ShipmentStatus, origin: LocationId, recorded: seq<TimelineEvent>, now: int)
    requires Summarize(status, origin, recorded).latest.None?
    ensures DetectRegression(Summarize(status, origin, recorded), now) == []
  {
    assert SortByTime(Summarize(status, origin, recorded).events) == [];
  }

  lemma SummaryCounts(limits: Thresholds, status: ShipmentStatus, origin: LocationId,
                      recorded: seq<TimelineEvent>, now: int)
    ensures var issues := Analyze(limits, Summarize(status, origin, recorded), now);
            CountOf(issues, Info) == 0 && CountOf(issues, Critical) <= 1
  {
    var context := Summarize(status, origin, recorded);
    DetectorSeverities(limits, context, now);
    if context.latest.None? {
      EmptyTimelineHasNoRegression(status, origin, recorded, now);
    }
    forall severity | severity == Info || severity == Critical
      ensures CountOf(Analyze(limits, context, now), severity) <= if severity.Info? then 0 else 1
    {
      AnalysisCounts(limits, context, now, severity);
      OneIsCounted(DetectStale(limits, context, now), if context.latest.None? then Critical else Warning, severity);
      OneIsCounted(DetectStalled(limits, context, now), Warning, severity);
      OneIsCounted(DetectMissingTimeline(context), Warning, severity);
      OneIsCounted(DetectMismatch(context), Warning, severity);
      OneIsCounted(DetectRegression(context, now), Critical, severity);
      OneIsCounted(DetectDeparture(context, now), Warning, severity);
    }
  }

  /**
   Every analysis of a summarized shipment names each code once and has at most one critical issue and no info
   issue. Its risk score is 25 for each warning and 60 for the critical issue, but at most 100, and its risk level reads
   off the issues: low, none; medium, one warning; high, two warnings or more; critical, the one critical issue.
   */
  lemma RiskReadsOffIssues(limits: Thresholds, status: ShipmentStatus, origin: LocationId,
                           recorded: seq<TimelineEvent>, now: int)
    ensures var issues := Analyze(limits, Summarize(status, origin, recorded), now);
            && DistinctCodes(issues) && CountOf(issues, Info) == 0 && CountOf(issues, Critical) <= 1
            && RiskMatches(issues)
  {
    var context := Summarize(status, origin, recorded);
    AnalysisClimbs(limits, context, now);
    SummaryCounts(limits, status, origin, recorded, now);
    RiskLevelCounts(Analyze(limits, context, now));
  }

  // ---- the passing of time ----

  ghost predicate Reports(issues: seq<Issue>, code: IssueCode) {
    exists i :: 0 <= i < |issues| && issues[i].code == code
  }

  lemma ReportsConcat(a: seq<Issue>, b: seq<Issue>, code: IssueCode)
    ensures Reports(a + b, code) <==> Reports(a, code) || Reports(b, code)
  {
    if i :| 0 <= i < |a| && a[i].code == code {
      assert (a + b)[i].code == code;
    }
    if i :| 0 <= i < |b| && b[i].code == code {
      assert (a + b)[|a| + i].code == code;
    }
    if i :| 0 <= i < |a + b| && (a + b)[i].code == code {
      assert if i < |a| then a[i].code == code else b[i - |a|].code == code;
    }
  }

  lemma AnalysisReports(limits: Thresholds, context: Context, now: int, code: IssueCode)
    ensures Reports(Analyze(limits, context, now), code)
            <==> || Reports(DetectStale(limits, context, now), code)
                 || Reports(DetectStalled(limits, context, now), code)
                 || Reports(DetectMissingTimeline(context), code) || Reports(DetectMismatch(context), code)
                 || Reports(DetectRegression(context, now), code) || Reports(DetectDeparture(context, now), code)
  {
    var a, b, c := DetectStale(limits, context, now), DetectStalled(limits, context, now),
                   DetectMissingTimeline(context);
    var d, e, f := DetectMismatch(context), DetectRegression(context, now), DetectDeparture(context, now);
    ReportsConcat(a, b, code);
    ReportsConcat(a + b, c, code);
    ReportsConcat(a + b + c, d, code);
    ReportsConcat(a + b + c + d, e, code);
    ReportsConcat(a + b + c + d + e, f, code);
  }

  /** What each code reports, in terms of the events in time order alone. */
  ghost predicate Warrants(limits: Thresholds, status: ShipmentStatus, origin: LocationId, s: seq<TimelineEvent>,
                           now: int, code: IssueCode)
  {
    var last := |s| - 1;
    match code
    case InTransitWithoutEvents => status == InTransit && s == []
    case StaleInTransit => status == InTransit && s != [] && now - s[last].occurredAt > limits.staleAfter
    case StalledAtLocation =>
      && status == InTransit && s != [] && now - s[last].occurredAt > limits.stalledAfter
      && s[last].kind == ArrivedAtLocation && s[last].location.Some?
    case MissingTimeline => status != Draft && s == []
    case DeliveredWithoutDeliveredEvent => status == Delivered && s != [] && s[last].status != Some(Delivered)
    case CancelledWithoutCancelledEvent => status == Cancelled && s != [] && s[last].status != Some(Cancelled)
    case TerminalStatusRegression => HasReversal(s)
    case DepartureWithoutArrival => exists j: nat :: j < |s| && LacksArrival(s, origin, j)
  }

  lemma SummaryIsSorted(status: ShipmentStatus, origin: LocationId, recorded: seq<TimelineEvent>)
    ensures var c, s := Summarize(status, origin, recorded), SortByTime(recorded);
            && c.status == status && c.origin == origin && c.events == s && SortByTime(c.events) == s
            && c.eventCount == |s| == |recorded|
            && c.latest == if s == [] then None else Some(s[|s| - 1])
  {
    SortIsStable(recorded);
    ResortingSummaryIsIdentity(status, origin, recorded);
  }

  /** The two scans, on a context whose events are `s`. */
  lemma ScansReport(context: Context, s: seq<TimelineEvent>, now: int)
    requires SortByTime(context.events) == s
    ensures DetectRegression(context, now) != [] <==> HasReversal(s)
    ensures DetectDeparture(context, now) != [] <==> exists j: nat :: j < |s| && LacksArrival(s, context.origin, j)
  {
    var _, _ := RegressionIsReported(context, now);
    DepartureIsReported(context, now);
  }

  lemma ContextIsAnalyzed(limits: Thresholds, context: Context, s: seq<TimelineEvent>, now: int, code: IssueCode)
    requires SortByTime(context.events) == s && context.eventCount == |s|
    requires context.latest == if s == [] then None else Some(s[|s| - 1])
    ensures Reports(Analyze(limits, context, now), code)
            <==> Warrants(limits, context.status, context.origin, s, now, code)
  {
    AnalysisReports(limits, context, now, code);
    DetectorReports(limits, context, now, code);
    ScansReport(context, s, now);
  }

  /** The analysis of a summary reports a code if and only if the recorded events, in time order, warrant it. */
  lemma ReportedExactlyWhenWarranted(limits: Thresholds, status: ShipmentStatus, origin: LocationId,
                                     recorded: seq<TimelineEvent>, now: int, code: IssueCode)
    ensures Reports(Analyze(limits, Summarize(status, origin, recorded), now), code)
            <==> Warrants(limits, status, origin, SortByTime(recorded), now, code)
  {
    SummaryIsSorted(status, origin, recorded);
    ContextIsAnalyzed(limits, Summarize(status, origin, recorded), SortByTime(recorded), now, code);
  }

  /** Each detector reports its own codes, and one of them exactly when it reports at all. */
  lemma DetectorReports(limits: Thresholds, context: Context, now: int, code: IssueCode)
    ensures Reports(DetectStale(limits, context, now), code)
            <==> DetectStale(limits, context, now) != []
                 && code == if context.latest.None? then InTransitWithoutEvents else StaleInTransit
    ensures Reports(DetectStalled(limits, context, now), code)
            <==> DetectStalled(limits, context, now) != [] && code == StalledAtLocation
    ensures Reports(DetectMissingTimeline(context), code)
            <==> DetectMissingTimeline(context) != [] && code == MissingTimeline
    ensures Reports(DetectMismatch(context), code)
            <==> DetectMismatch(context) != []
                 && code == if context.status == Delivered then DeliveredWithoutDeliveredEvent
                            else CancelledWithoutCancelledEvent
    ensures Reports(DetectRegression(context, now), code)
            <==> DetectRegression(context, now) != [] && code == TerminalStatusRegression
    ensures Reports(DetectDeparture(context, now), code)
            <==> DetectDeparture(context, now) != [] && code == DepartureWithoutArrival
  {
    SameCodeReports(DetectStale(limits, context, now), DetectStalled(limits, context, now), code);
    SameCodeReports(DetectMissingTimeline(context), DetectMismatch(context), code);
    SameCodeReports(DetectRegression(context, now), DetectDeparture(context, now), code);
  }

  /** The severity and the message of an issue, in terms of the events in time order alone. */
  ghost predicate Describes(issue: Issue, origin: LocationId, s: seq<TimelineEvent>, now: int) {
    match issue.code
    case InTransitWithoutEvents => issue == Issue(InTransitWithoutEvents, Critical, None, None)
    case StaleInTransit =>
      s != [] && issue == Issue(StaleInTransit, Warning, Some(now - s[|s| - 1].occurredAt), None)
    case StalledAtLocation =>
      s != [] && issue == Issue(StalledAtLocation, Warning, Some(now - s[|s| - 1].occurredAt), None)
    case TerminalStatusRegression =>
      exists i: nat, j: nat :: i < j < |s| && IsFirstReversal(s, i, j) && ReportsReversal(issue, s[i], s[j], now)
    case DepartureWithoutArrival =>
      exists j: nat ::
        && j < |s| && LacksArrival(s, origin, j)
        && (forall k: nat :: k < j ==> !LacksArrival(s, origin, k))
        && issue == Issue(DepartureWithoutArrival, Warning, Some(now - s[j].occurredAt), None)
    case _ => issue == Issue(issue.code, Warning, None, None)
  }

  predicate ReportsReversal(issue: Issue, terminal: TimelineEvent, later: TimelineEvent, now: int) {
    && terminal.status.Some? && later.status.Some?
    && issue == Issue(TerminalStatusRegression, Critical, Some(now - later.occurredAt),
                      Some((terminal.status.value, later.status.value)))
  }

  ghost predicate AllDescribe(issues: seq<Issue>, origin: LocationId, s: seq<TimelineEvent>, now: int) {
    forall i :: 0 <= i < |issues| ==> Describes(issues[i], origin, s, now)
  }

  lemma DescriptionsConcat(a: seq<Issue>, b: seq<Issue>, origin: LocationId, s: seq<TimelineEvent>, now: int)
    requires AllDescribe(a, origin, s, now) && AllDescribe(b, origin, s, now)
    ensures AllDescribe(a + b, origin, s, now)
  {
  }

  /** The four detectors that look at the latest event only. */
  lemma LatestIsDescribed(limits: Thresholds, context: Context, s: seq<TimelineEvent>, now: int)
    requires context.latest == if s == [] then None else Some(s[|s| - 1])
    ensures AllDescribe(DetectStale(limits, context, now), context.origin, s, now)
    ensures AllDescribe(DetectStalled(limits, context, now), context.origin, s, now)
    ensures AllDescribe(DetectMissingTimeline(context), context.origin, s, now)
    ensures AllDescribe(DetectMismatch(context), context.origin, s, now)
  {
  }

  lemma ReversalIsDescribed(context: Context, s: seq<TimelineEvent>, now: int)
    requires SortByTime(context.events) == s
    ensures AllDescribe(DetectRegression(context, now), context.origin, s, now)
  {
    var i, j := RegressionIsReported(context, now);
    if DetectRegression(context, now) != [] {
      assert ReportsReversal(DetectRegression(context, now)[0], s[i], s[j], now);
    }
  }

  lemma UnannouncedIsDescribed(context: Context, s: seq<TimelineEvent>, now: int)
    requires SortByTime(context.events) == s
    ensures AllDescribe(DetectDeparture(context, now), context.origin, s, now)
  {
    UnannouncedIsFound(s, context.origin);
  }

  /** Every reported issue has the severity of its code and names the age and the statuses of the events it is about. */
  lemma IssuesDescribeTheirEvents(limits: Thresholds, status: ShipmentStatus, origin: LocationId,
                                  recorded: seq<TimelineEvent>, now: int)
    ensures AllDescribe(Analyze(limits, Summarize(status, origin, recorded), now), origin, SortByTime(recorded), now)
  {
    var context, s := Summarize(status, origin, recorded), SortByTime(recorded);
    SummaryIsSorted(status, origin, recorded);
    LatestIsDescribed(limits, context, s, now);
    ReversalIsDescribed(context, s, now);
    UnannouncedIsDescribed(context, s, now);
    var a, b, c := DetectStale(limits, context, now), DetectStalled(limits, context, now),
                   DetectMissingTimeline(context);
    var d, e, f := DetectMismatch(context), DetectRegression(context, now), DetectDeparture(context, now);
    DescriptionsConcat(a, b, origin, s, now);
    DescriptionsConcat(a + b, c, origin, s, now);
    DescriptionsConcat(a + b + c, d, origin, s, now);
    DescriptionsConcat(a + b + c + d, e, origin, s, now);
    DescriptionsConcat(a + b + c + d + e, f, origin, s, now);
  }

  /** As time passes nothing that was reported goes away, and only staleness and stalling can be added. */
  lemma IssuesAccumulate(limits: Thresholds, context: Context, now: int, later: int, code: IssueCode)
    requires now <= later
    ensures Reports(Analyze(limits, context, now), code) ==> Reports(Analyze(limits, context, later), code)
    ensures Reports(Analyze(limits, context, later), code) && !Reports(Analyze(limits, context, now), code) ==>
              code == StaleInTransit || code == StalledAtLocation
  {
    AnalysisReports(limits, context, now, code);
    AnalysisReports(limits, context, later, code);
    DetectorsAccumulate(limits, context, now, later, code);
  }

  lemma DetectorsAccumulate(limits: Thresholds, context: Context, now: int, later: int, code: IssueCode)
    requires now <= later
    ensures Reports(DetectStale(limits, context, now), code) ==> Reports(DetectStale(limits, context, later), code)
    ensures Reports(DetectStalled(limits, context, now), code) ==>
              Reports(DetectStalled(limits, context, later), code)
    ensures Reports(DetectStale(limits, context, later), code) && !Reports(DetectStale(limits, context, now), code)
            ==> code == StaleInTransit
    ensures Reports(DetectStalled(limits, context, later), code) ==> code == StalledAtLocation
    ensures Reports(DetectRegression(context, now), code) <==> Reports(DetectRegression(context, later), code)
    ensures Reports(DetectDeparture(context, now), code) <==> Reports(DetectDeparture(context, later), code)
  {
    SameCodeReports(DetectStale(limits, context, now), DetectStale(limits, context, later), code);
    SameCodeReports(DetectStalled(limits, context, now), DetectStalled(limits, context, later), code);
    SameCodeReports(DetectRegression(context, now), DetectRegression(context, later), code);
    SameCodeReports(DetectDeparture(context, now), DetectDeparture(context, later), code);
  }

  lemma SameCodeReports(a: seq<Issue>, b: seq<Issue>, code: IssueCode)
    requires |a| <= 1 && |b| <= 1
    ensures Reports(a, code) <==> a != [] && a[0].code == code
    ensures Reports(b, code) <==> b != [] && b[0].code == code
  {
  }

  ghost predicate LatestIsLocatedArrival(context: Context) {
    && context.latest.Some?
    && context.latest.value.kind == ArrivedAtLocation
    && context.latest.value.location.Some?
  }

  /** Whenever a shipment whose latest event is a located arrival is stale, it is stalled as well. */
  ghost predicate StaleImpliesStalled(limits: Thresholds) {
    forall context, now ::
      LatestIsLocatedArrival(context) && DetectStale(limits, context, now) != [] ==>
        DetectStalled(limits, context, now) != []
  }

  /** This holds exactly of the thresholds that allow no more time at a location than without an event. */
  lemma StaleImpliesStalledWhenOrdered(limits: Thresholds)
    ensures StaleImpliesStalled(limits) <==> limits.stalledAfter <= limits.staleAfter
  {
    if limits.stalledAfter > limits.staleAfter {
      var arrival := TimelineEvent(0, ArrivedAtLocation, None, Some(1), 0, "");
      var context := Context(InTransit, 0, 1, Some(arrival), [arrival]);
      assert LatestIsLocatedArrival(context);
      assert DetectStale(limits, context, limits.stalledAfter) != [];
      assert DetectStalled(limits, context, limits.stalledAfter) == [];
    }
  }
}
