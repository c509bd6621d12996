/** The audit log and security-event store, the compliance score and the security
    finding generators. The clock and id generator are parameters; timestamps are
    milliseconds. */
module Audit {
  import opened Js

  /** `auditLogs` keeps at most this many entries. */
  const AuditCap: nat := 10000

  /** `securityEvents` keeps at most this many entries. */
  const EventCap: nat := 5000

  // ------------------------------------------------------------------------
  // Audit log
  // ------------------------------------------------------------------------

  datatype AuditLog = AuditLog(id: string, timestamp: int, eventType: string, category: string, severity: string,
                               source: string, user: string, action: Option<string>, result: string,
                               ipAddress: Option<string>, userAgent: Option<string>)

  /** The event handed to `logAuditEvent`; `None` is a missing property. */
  datatype AuditInput = AuditInput(eventType: Option<string>, category: Option<string>, severity: Option<string>,
                                   source: Option<string>, user: Option<string>, action: Option<string>,
                                   result: Option<string>, ipAddress: Option<string>, userAgent: Option<string>)

  /** The record `logAuditEvent` builds; every `||` default also replaces an empty string. */
  function NewAuditLog(input: AuditInput, id: string, now: int): (l: AuditLog)
    ensures l.id == id && l.timestamp == now && l.action == input.action
    ensures (input.eventType.None? || input.eventType == Some("")) ==> l.eventType == "unknown"
    ensures input.eventType.Some? && input.eventType.value != "" ==> l.eventType == input.eventType.value
    ensures (input.category.None? || input.category == Some("")) ==> l.category == "general"
    ensures input.category.Some? && input.category.value != "" ==> l.category == input.category.value
    ensures (input.severity.None? || input.severity == Some("")) ==> l.severity == "info"
    ensures input.severity.Some? && input.severity.value != "" ==> l.severity == input.severity.value
    ensures (input.source.None? || input.source == Some("")) ==> l.source == "system"
    ensures input.source.Some? && input.source.value != "" ==> l.source == input.source.value
    ensures (input.user.None? || input.user == Some("")) ==> l.user == "system"
    ensures input.user.Some? && input.user.value != "" ==> l.user == input.user.value
    ensures (input.result.None? || input.result == Some("")) ==> l.result == "success"
    ensures input.result.Some? && input.result.value != "" ==> l.result == input.result.value
    ensures (input.ipAddress.None? || input.ipAddress == Some("")) ==> l.ipAddress.None?
    ensures input.ipAddress.Some? && input.ipAddress.value != "" ==> l.ipAddress == input.ipAddress
    ensures (input.userAgent.None? || input.userAgent == Some("")) ==> l.userAgent.None?
    ensures input.userAgent.Some? && input.userAgent.value != "" ==> l.userAgent == input.userAgent
  {
    AuditLog(id, now, OrDefault(input.eventType, "unknown"), OrDefault(input.category, "general"),
             OrDefault(input.severity, "info"), OrDefault(input.source, "system"), OrDefault(input.user, "system"),
             input.action, OrDefault(input.result, "success"),
             if OrDefault(input.ipAddress, "") == "" then None else input.ipAddress,
             if OrDefault(input.userAgent, "") == "" then None else input.userAgent)
  }

  /** `logAuditEvent(event)`: the log afterwards. */
  function LogEvent(logs: seq<AuditLog>, input: AuditInput, id: string, now: int): (r: seq<AuditLog>)
    ensures |r| == Min(|logs| + 1, AuditCap) && r[0] == NewAuditLog(input, id, now)
    ensures r[1..] == logs[..|r| - 1]
  {
    Prepend(NewAuditLog(input, id, now), logs, AuditCap)
  }

  /** The options of `getAuditLogs`; an empty string, `None` or a zero limit is an absent
      option. */
  datatype AuditQuery = AuditQuery(eventType: string, category: string, severity: string, user: string,
                                   startTime: Option<int>, endTime: Option<int>, limit: int)

  predicate LogMatches(l: AuditLog, q: AuditQuery) {
    (q.eventType != "" ==> l.eventType == q.eventType) &&
    (q.category != "" ==> l.category == q.category) &&
    (q.severity != "" ==> l.severity == q.severity) &&
    (q.user != "" ==> l.user == q.user) &&
    (q.startTime.Some? ==> l.timestamp >= q.startTime.value) &&
    (q.endTime.Some? ==> l.timestamp <= q.endTime.value)
  }

  /** The options of `getAuditLogs` as one condition. */
  function LogQuery(q: AuditQuery): AuditLog -> bool {
    (l: AuditLog) => LogMatches(l, q)
  }

  /** `getAuditLogs(options)`: the successive filters are one filter by their conjunction
      (`Js.FilterFuse`), then the limit. */
  function AuditLogs(logs: seq<AuditLog>, q: AuditQuery): seq<AuditLog> {
    ApplyLimit(Filter(logs, LogQuery(q)), q.limit)
  }

  /** The query returns logs satisfying every given option, in stored order: all
      `Count(logs, LogQuery(q))` matches without a limit, the first `limit` of them with a
      positive limit (every match among those included), and all but the last `-limit`
      with a negative one. */
  lemma AuditLogsLaws(logs: seq<AuditLog>, q: AuditQuery)
    ensures IsSubsequence(AuditLogs(logs, q), logs)
    ensures forall i :: 0 <= i < |AuditLogs(logs, q)| ==> LogMatches(AuditLogs(logs, q)[i], q)
    ensures |Filter(logs, LogQuery(q))| == Count(logs, LogQuery(q))
    ensures q.limit == 0 ==> AuditLogs(logs, q) == Filter(logs, LogQuery(q))
    ensures var m := Filter(logs, LogQuery(q));
      (q.limit > 0 ==> AuditLogs(logs, q) == m[..Min(q.limit, |m|)]) &&
      (q.limit < 0 ==> AuditLogs(logs, q) == m[..Max(0, |m| + q.limit)])
    ensures forall j :: 0 <= j < |logs| && LogMatches(logs[j], q) &&
                        (q.limit == 0 || (0 < q.limit && Count(logs[..j + 1], LogQuery(q)) <= q.limit)) ==>
      logs[j] in AuditLogs(logs, q)
  {
    FilterLaws(logs, LogQuery(q));
    FilterLimitLaws(logs, LogQuery(q), q.limit);
  }

  // ------------------------------------------------------------------------
  // Security events
  // ------------------------------------------------------------------------

  datatype SecurityEvent = SecurityEvent(id: string, timestamp: int, kind: string, severity: string,
                                         title: Option<string>, description: string, source: string,
                                         affectedResources: seq<string>, remediation: string, status: string,
                                         acknowledged: bool, acknowledgedBy: Option<string>, acknowledgedAt: Option<int>,
                                         resolved: bool, resolvedBy: Option<string>, resolvedAt: Option<int>)

  /** The event handed to `createSecurityEvent`. */
  datatype EventInput = EventInput(kind: Option<string>, severity: Option<string>, title: Option<string>,
                                   description: Option<string>, source: Option<string>,
                                   affectedResources: Option<seq<string>>, remediation: Option<string>)

  function EventId(e: SecurityEvent): string { e.id }

  /** The record `createSecurityEvent` builds: open, unacknowledged and unresolved. */
  function NewEvent(input: EventInput, id: string, now: int): (e: SecurityEvent)
    ensures e.id == id && e.status == "open" && !e.acknowledged && !e.resolved
    ensures e.acknowledgedBy.None? && e.acknowledgedAt.None? && e.resolvedBy.None? && e.resolvedAt.None?
    ensures e.timestamp == now && e.title == input.title
    ensures (input.kind.None? || input.kind == Some("")) ==> e.kind == "unknown"
    ensures input.kind.Some? && input.kind.value != "" ==> e.kind == input.kind.value
    ensures (input.severity.None? || input.severity == Some("")) ==> e.severity == "medium"
    ensures input.severity.Some? && input.severity.value != "" ==> e.severity == input.severity.value
    ensures input.description.Some? && input.description.value != "" ==> e.description == input.description.value
    ensures input.description.None? || input.description.value == "" ==> e.description == ""
    ensures input.source.Some? && input.source.value != "" ==> e.source == input.source.value
    ensures input.source.None? || input.source.value == "" ==> e.source == "system"
    ensures input.affectedResources.Some? ==> e.affectedResources == input.affectedResources.value
    ensures input.affectedResources.None? ==> e.affectedResources == []
    ensures input.remediation.Some? && input.remediation.value != "" ==> e.remediation == input.remediation.value
    ensures input.remediation.None? || input.remediation.value == "" ==> e.remediation == ""
  {
    SecurityEvent(id, now, OrDefault(input.kind, "unknown"), OrDefault(input.severity, "medium"), input.title,
                  OrDefault(input.description, ""), OrDefault(input.source, "system"),
                  input.affectedResources.GetOr([]), OrDefault(input.remediation, ""), "open",
                  false, None, None, false, None, None)
  }

  /** `createSecurityEvent(event)`: the list afterwards. */
  function CreateEvent(events: seq<SecurityEvent>, input: EventInput, id: string, now: int): (r: seq<SecurityEvent>)
    ensures |r| == Min(|events| + 1, EventCap) && r[0] == NewEvent(input, id, now)
    ensures r[1..] == events[..|r| - 1]
  {
    Prepend(NewEvent(input, id, now), events, EventCap)
  }

  /** `acknowledgeSecurityEvent(eventId, by)`: the list afterwards and the updated event. */
  function AcknowledgeEvent(events: seq<SecurityEvent>, eventId: string, actor: Option<string>, now: int)
    : Result<(seq<SecurityEvent>, SecurityEvent)>
  {
    var i := IndexOf(events, EventId, eventId);
    if i < 0 then Fail(NotFound("Security event not found: " + eventId))
    else
      var e := events[i].(acknowledged := true, acknowledgedBy := actor, acknowledgedAt := Some(now));
      Ok((events[i := e], e))
  }

  /** `resolveSecurityEvent(eventId, by)`: the list afterwards and the updated event. */
  function ResolveEvent(events: seq<SecurityEvent>, eventId: string, actor: Option<string>, now: int)
    : Result<(seq<SecurityEvent>, SecurityEvent)>
  {
    var i := IndexOf(events, EventId, eventId);
    if i < 0 then Fail(NotFound("Security event not found: " + eventId))
    else
      var e := events[i].(resolved := true, resolvedBy := actor, resolvedAt := Some(now), status := "resolved");
      Ok((events[i := e], e))
  }

  /** Acknowledging fails exactly on an unknown id; otherwise it marks the first event with
      the id, keeps its status and resolution, and leaves every other event alone. */
  lemma AcknowledgeEventLaws(events: seq<SecurityEvent>, eventId: string, actor: Option<string>, now: int)
    ensures AcknowledgeEvent(events, eventId, actor, now).Fail? <==> forall j :: 0 <= j < |events| ==> events[j].id != eventId
    ensures AcknowledgeEvent(events, eventId, actor, now).Ok? ==>
      var (es, e) := AcknowledgeEvent(events, eventId, actor, now).value;
      var i := IndexOf(events, EventId, eventId);
      |es| == |events| && es[i] == e && e.id == eventId &&
      e.acknowledged && e.acknowledgedBy == actor && e.acknowledgedAt == Some(now) &&
      e.status == events[i].status && e.resolved == events[i].resolved &&
      forall j :: 0 <= j < |events| && j != i ==> es[j] == events[j]
  {
  }

  /** Resolving fails exactly on an unknown id; otherwise it marks the first event with the
      id resolved, sets its status to `resolved`, keeps its acknowledgement, and leaves
      every other event alone. */
  lemma ResolveEventLaws(events: seq<SecurityEvent>, eventId: string, actor: Option<string>, now: int)
    ensures ResolveEvent(events, eventId, actor, now).Fail? <==> forall j :: 0 <= j < |events| ==> events[j].id != eventId
    ensures ResolveEvent(events, eventId, actor, now).Ok? ==>
      var (es, e) := ResolveEvent(events, eventId, actor, now).value;
      var i := IndexOf(events, EventId, eventId);
      |es| == |events| && es[i] == e && e.id == eventId &&
      e.resolved && e.resolvedBy == actor && e.resolvedAt == Some(now) && e.status == "resolved" &&
      e.acknowledged == events[i].acknowledged &&
      forall j :: 0 <= j < |events| && j != i ==> es[j] == events[j]
  {
  }

  /** The lifecycle: an event is either open and unresolved or resolved with that status. */
  predicate InLifecycle(e: SecurityEvent) {
    (e.status == "open" && !e.resolved) || (e.status == "resolved" && e.resolved)
  }

  predicate AllInLifecycle(events: seq<SecurityEvent>) {
    forall i :: 0 <= i < |events| ==> InLifecycle(events[i])
  }

  /** Creating, acknowledging and resolving keep every event in the lifecycle. */
  lemma LifecyclePreserved(events: seq<SecurityEvent>, input: EventInput, eventId: string, actor: Option<string>,
                           id: string, now: int)
    requires AllInLifecycle(events)
    ensures AllInLifecycle(CreateEvent(events, input, id, now))
    ensures AcknowledgeEvent(events, eventId, actor, now).Ok? ==> AllInLifecycle(AcknowledgeEvent(events, eventId, actor, now).value.0)
    ensures ResolveEvent(events, eventId, actor, now).Ok? ==> AllInLifecycle(ResolveEvent(events, eventId, actor, now).value.0)
  {
    var r := CreateEvent(events, input, id, now);
    forall i | 0 <= i < |r| ensures InLifecycle(r[i]) {
      if i > 0 { assert r[i] == r[1..][i - 1] == events[i - 1]; }
    }
  }

  /** The options of `getSecurityEvents`. */
  datatype EventQuery = EventQuery(kind: string, severity: string, status: string, acknowledged: Option<bool>,
                                   startTime: Option<int>, endTime: Option<int>, limit: int)

  predicate EventMatches(e: SecurityEvent, q: EventQuery) {
    (q.kind != "" ==> e.kind == q.kind) &&
    (q.severity != "" ==> e.severity == q.severity) &&
    (q.status != "" ==> e.status == q.status) &&
    (q.acknowledged.Some? ==> e.acknowledged == q.acknowledged.value) &&
    (q.startTime.Some? ==> e.timestamp >= q.startTime.value) &&
    (q.endTime.Some? ==> e.timestamp <= q.endTime.value)
  }

  /** The options of `getSecurityEvents` as one condition. */
  function EventQueryMatches(q: EventQuery): SecurityEvent -> bool {
    (e: SecurityEvent) => EventMatches(e, q)
  }

  /** `getSecurityEvents(options)` */
  function SecurityEvents(events: seq<SecurityEvent>, q: EventQuery): seq<SecurityEvent> {
    ApplyLimit(Filter(events, EventQueryMatches(q)), q.limit)
  }

  /** The query returns events satisfying every given option, in stored order: all
      matches without a limit, the first `limit` of them with a positive limit (every
      match among those included), and all but the last `-limit` with a negative one. */
  lemma SecurityEventsLaws(events: seq<SecurityEvent>, q: EventQuery)
    ensures IsSubsequence(SecurityEvents(events, q), events)
    ensures forall i :: 0 <= i < |SecurityEvents(events, q)| ==> EventMatches(SecurityEvents(events, q)[i], q)
    ensures |Filter(events, EventQueryMatches(q))| == Count(events, EventQueryMatches(q))
    ensures q.limit == 0 ==> SecurityEvents(events, q) == Filter(events, EventQueryMatches(q))
    ensures var m := Filter(events, EventQueryMatches(q));
      (q.limit > 0 ==> SecurityEvents(events, q) == m[..Min(q.limit, |m|)]) &&
      (q.limit < 0 ==> SecurityEvents(events, q) == m[..Max(0, |m| + q.limit)])
    ensures forall j :: 0 <= j < |events| && EventMatches(events[j], q) &&
                        (q.limit == 0 || (0 < q.limit && Count(events[..j + 1], EventQueryMatches(q)) <= q.limit)) ==>
      events[j] in SecurityEvents(events, q)
  {
    FilterLaws(events, EventQueryMatches(q));
    FilterLimitLaws(events, EventQueryMatches(q), q.limit);
  }

  datatype SecurityStats = SecurityStats(totalEvents: nat, openEvents: nat, acknowledgedEvents: nat,
                                         resolvedEvents: nat, byType: Dict<nat>, bySeverity: Dict<nat>)

  predicate IsOpen(e: SecurityEvent) { e.status == "open" }
  predicate IsAcknowledged(e: SecurityEvent) { e.acknowledged }
  predicate IsResolved(e: SecurityEvent) { e.resolved }
  function Kind(e: SecurityEvent): string { e.kind }
  function EventSeverity(e: SecurityEvent): string { e.severity }

  /** `getSecurityStatistics()` without the clock-relative counters. */
  function SecurityStatsOf(events: seq<SecurityEvent>): SecurityStats {
    SecurityStats(|events|, Count(events, IsOpen), Count(events, IsAcknowledged), Count(events, IsResolved),
                  CountBy([], events, Kind), CountBy([], events, EventSeverity))
  }

  lemma {:induction false} OpenResolvedSplit(events: seq<SecurityEvent>)
    requires AllInLifecycle(events)
    ensures Count(events, IsOpen) + Count(events, IsResolved) == |events|
    decreases |events|
  {
    if |events| > 0 {
      OpenResolvedSplit(events[..|events| - 1]);
    }
  }

  /** The type and severity counts each sum to the number of events, and for events in
      the lifecycle every event is counted as open or as resolved, never both. */
  lemma SecurityStatsLaws(events: seq<SecurityEvent>)
    ensures SumCounts(SecurityStatsOf(events).byType) == |events|
    ensures SumCounts(SecurityStatsOf(events).bySeverity) == |events|
    ensures AllInLifecycle(events) ==> SecurityStatsOf(events).openEvents + SecurityStatsOf(events).resolvedEvents == |events|
  {
    CountByLaws([], events, Kind, "");
    CountByLaws([], events, EventSeverity, "");
    if AllInLifecycle(events) {
      OpenResolvedSplit(events);
    }
  }

  /** The `forEach` of `getSecurityStatistics` building `byType` and `bySeverity`. */
  method SecurityStatistics(events: seq<SecurityEvent>) returns (st: SecurityStats)
    ensures st == SecurityStatsOf(events)
  {
    var byType: Dict<nat> := [];
    var bySeverity: Dict<nat> := [];
    var i := 0;
    while i < |events|
      invariant 0 <= i <= |events|
      invariant byType == CountBy([], events[..i], Kind)
      invariant bySeverity == CountBy([], events[..i], EventSeverity)
    {
      assert events[..i + 1][..i] == events[..i];
      byType := Bump(byType, events[i].kind);
      bySeverity := Bump(bySeverity, events[i].severity);
      i := i + 1;
    }
    assert events[..i] == events;
    st := SecurityStats(|events|, Count(events, IsOpen), Count(events, IsAcknowledged), Count(events, IsResolved),
                        byType, bySeverity);
  }

  // ------------------------------------------------------------------------
  // Compliance score
  // ------------------------------------------------------------------------

  /** The resource a finding is about; `pod` is empty unless it is a container. */
  datatype Resource = Resource(kind: string, namespace: string, pod: string, name: string)

  /** A finding; its title, description and recommendation are display text and are not
      modelled. */
  datatype Finding = Finding(category: string, severity: string, resource: Resource)

  /** `severityWeights[severity] || 0` */
  function Weight(severity: string): (w: nat)
    ensures w <= 50
  {
    match severity
    case "critical" => 50
    case "high" => 20
    case "medium" => 10
    case "low" => 5
    case "info" => 1
    case _ => 0
  }

  function FindingWeight(f: Finding): nat { Weight(f.severity) }

  function TotalWeight(fs: seq<Finding>): nat { SumNat(fs, FindingWeight) }

  /** `Math.round(x)` for a rational `num / den` with `den > 0`: the floor of x + 1/2. */
  function RoundRatio(num: int, den: int): int
    requires den > 0
  {
    (2 * num + den) / (2 * den)
  }

  /** `calculateComplianceScore(findings)` in exact arithmetic:
      `round(max(0, 100 - W / (50 n) * 100))` is `round(max(0, (100 n - 2 W) / n))`. */
  function ComplianceScore(fs: seq<Finding>): int {
    if |fs| == 0 then 100
    else
      var n := |fs|;
      var num := 100 * n - 2 * TotalWeight(fs);
      if num <= 0 then 0 else RoundRatio(num, n)
  }

  lemma {:induction false} TotalWeightBound(fs: seq<Finding>)
    ensures TotalWeight(fs) <= 50 * |fs|
    decreases |fs|
  {
    if |fs| > 0 { TotalWeightBound(fs[..|fs| - 1]); }
  }

  lemma {:induction false} AllCriticalWeight(fs: seq<Finding>)
    requires forall i :: 0 <= i < |fs| ==> fs[i].severity == "critical"
    ensures TotalWeight(fs) == 50 * |fs|
    decreases |fs|
  {
    if |fs| > 0 { AllCriticalWeight(fs[..|fs| - 1]); }
  }

  /** The score is 100 without findings, always lies in [0, 100], is 0 when every finding
      is critical, and rounds to nearest: `num / n` rounded is within half of it. */
  lemma ComplianceScoreLaws(fs: seq<Finding>)
    ensures |fs| == 0 ==> ComplianceScore(fs) == 100
    ensures 0 <= ComplianceScore(fs) <= 100
    ensures |fs| > 0 && (forall i :: 0 <= i < |fs| ==> fs[i].severity == "critical") ==> ComplianceScore(fs) == 0
    ensures |fs| > 0 && 100 * |fs| > 2 * TotalWeight(fs) ==>
      var n := |fs|;
      var num := 100 * n - 2 * TotalWeight(fs);
      2 * n * ComplianceScore(fs) <= 2 * num + n < 2 * n * ComplianceScore(fs) + 2 * n
  {
    if |fs| > 0 {
      TotalWeightBound(fs);
      var n := |fs|;
      var num := 100 * n - 2 * TotalWeight(fs);
      if num > 0 {
        RoundBounds(num, n);
      }
      if forall i :: 0 <= i < |fs| ==> fs[i].severity == "critical" {
        AllCriticalWeight(fs);
      }
    }
  }

  lemma RoundBounds(num: int, n: int)
    requires 0 < num <= 100 * n
    ensures 0 <= RoundRatio(num, n) <= 100
    ensures 2 * n * RoundRatio(num, n) <= 2 * num + n < 2 * n * RoundRatio(num, n) + 2 * n
  {
    var q := RoundRatio(num, n);
    assert 2 * n * q <= 2 * num + n < 2 * n * q + 2 * n;
    assert 2 * n * q < 2 * n * 101;
    CancelLess(2 * n, q, 101);
    assert 0 < 2 * n * q + 2 * n;
    CancelLess(2 * n, -1, q);
  }

  lemma CancelLess(d: int, a: int, b: int)
    requires d > 0 && d * a < d * b
    ensures a < b
  {
    assert d * b - d * a == d * (b - a);
  }


  /** The `forEach` of `calculateComplianceScore` accumulating the total weight. */
  method CalculateComplianceScore(fs: seq<Finding>) returns (score: int)
    ensures score == ComplianceScore(fs)
  {
    if |fs| == 0 {
      return 100;
    }
    var total := 0;
    var i := 0;
    while i < |fs|
      invariant 0 <= i <= |fs|
      invariant total == TotalWeight(fs[..i])
    {
      assert fs[..i + 1][..i] == fs[..i];
      total := total + Weight(fs[i].severity);
      i := i + 1;
    }
    assert fs[..i] == fs;
    var num := 100 * |fs| - 2 * total;
    score := if num <= 0 then 0 else RoundRatio(num, |fs|);
  }

  // ------------------------------------------------------------------------
  // Finding generators
  // ------------------------------------------------------------------------

  predicate IsCritical(f: Finding) { f.severity == "critical" }
  predicate IsHigh(f: Finding) { f.severity == "high" }
  predicate IsLow(f: Finding) { f.severity == "low" }
  predicate IsInfo(f: Finding) { f.severity == "info" }

  /** The parts of a container `checkPodSecurity` looks at: its security context
      (`Some(privileged)` when present) and its resources (`Some(hasLimits)` when present). */
  datatype Container = Container(name: string, securityContext: Option<bool>, resources: Option<bool>)

  /** A pod: its security context (`Some(runAsNonRoot)` when present) and containers. */
  datatype Pod = Pod(namespace: string, name: string, securityContext: Option<bool>, containers: seq<Container>)

  predicate Privileged(c: Container) { c.securityContext == Some(true) }

  function ContainerFindings(p: Pod, c: Container): seq<Finding> {
    var res := Resource("container", p.namespace, p.name, c.name);
    When(c.securityContext.None?, Finding("pod-security", "medium", res)) +
    When(Privileged(c), Finding("pod-security", "critical", res)) +
    When(c.resources == Some(false), Finding("resource-limits", "medium", res))
  }

  function PodHead(p: Pod): seq<Finding> {
    var res := Resource("pod", p.namespace, "", p.name);
    When(p.securityContext.None?, Finding("pod-security", "medium", res)) +
    When(p.securityContext == Some(false), Finding("pod-security", "high", res))
  }

  function PodFindings(p: Pod): seq<Finding> {
    PodHead(p) + FlatMap(p.containers, (c: Container) => ContainerFindings(p, c))
  }

  /** `checkPodSecurity(pods)` */
  function PodSecurity(pods: seq<Pod>): seq<Finding> {
    FlatMap(pods, PodFindings)
  }

  function PrivilegedCount(p: Pod): nat { Count(p.containers, Privileged) }

  lemma ContainerCritical(p: Pod, c: Container)
    ensures Count(ContainerFindings(p, c), IsCritical) == (if Privileged(c) then 1 else 0)
  {
    var res := Resource("container", p.namespace, p.name, c.name);
    var a := When(c.securityContext.None?, Finding("pod-security", "medium", res));
    var b := When(Privileged(c), Finding("pod-security", "critical", res));
    var d := When(c.resources == Some(false), Finding("resource-limits", "medium", res));
    CountAppend(a + b, d, IsCritical);
    CountAppend(a, b, IsCritical);
    CountWhen(c.securityContext.None?, Finding("pod-security", "medium", res), IsCritical);
    CountWhen(Privileged(c), Finding("pod-security", "critical", res), IsCritical);
    CountWhen(c.resources == Some(false), Finding("resource-limits", "medium", res), IsCritical);
  }

  lemma PodCritical(p: Pod)
    ensures Count(PodFindings(p), IsCritical) == PrivilegedCount(p)
  {
    var res := Resource("pod", p.namespace, "", p.name);
    var a := When(p.securityContext.None?, Finding("pod-security", "medium", res));
    var b := When(p.securityContext == Some(false), Finding("pod-security", "high", res));
    CountAppend(a, b, IsCritical);
    CountWhen(p.securityContext.None?, Finding("pod-security", "medium", res), IsCritical);
    CountWhen(p.securityContext == Some(false), Finding("pod-security", "high", res), IsCritical);
    var f := (c: Container) => ContainerFindings(p, c);
    CountAppend(PodHead(p), FlatMap(p.containers, f), IsCritical);
    forall j | 0 <= j < |p.containers|
      ensures Count(f(p.containers[j]), IsCritical) == (if Privileged(p.containers[j]) then 1 else 0)
    {
      ContainerCritical(p, p.containers[j]);
    }
    CountFlatMap(p.containers, f, IsCritical, (c: Container) => if Privileged(c) then 1 else 0);
    SumIsCount(p.containers, Privileged, (c: Container) => if Privileged(c) then 1 else 0);
  }

  /** Critical pod findings are exactly the privileged containers, one each. */
  lemma PodSecurityCritical(pods: seq<Pod>)
    ensures Count(PodSecurity(pods), IsCritical) == SumNat(pods, PrivilegedCount)
  {
    forall i | 0 <= i < |pods| ensures Count(PodFindings(pods[i]), IsCritical) == PrivilegedCount(pods[i]) {
      PodCritical(pods[i]);
    }
    CountFlatMap(pods, PodFindings, IsCritical, PrivilegedCount);
  }

  /** The body of the inner `forEach` of `checkPodSecurity`, for one container. */
  method CheckContainer(p: Pod, c: Container) returns (fs: seq<Finding>)
    ensures fs == ContainerFindings(p, c)
  {
    var res := Resource("container", p.namespace, p.name, c.name);
    fs := [];
    if c.securityContext.None? {
      fs := fs + [Finding("pod-security", "medium", res)];
    }
    if c.securityContext == Some(true) {
      fs := fs + [Finding("pod-security", "critical", res)];
    }
    if c.resources == Some(false) {
      fs := fs + [Finding("resource-limits", "medium", res)];
    }
  }

  /** The inner `forEach` of `checkPodSecurity`, over one pod's containers. */
  method CheckContainers(p: Pod) returns (fs: seq<Finding>)
    ensures fs == FlatMap(p.containers, (c: Container) => ContainerFindings(p, c))
  {
    var f := (c: Container) => ContainerFindings(p, c);
    fs := [];
    var k := 0;
    while k < |p.containers|
      invariant 0 <= k <= |p.containers|
      invariant fs == FlatMap(p.containers[..k], f)
    {
      FlatMapSnoc(p.containers, k, f);
      var more := CheckContainer(p, p.containers[k]);
      fs := fs + more;
      k := k + 1;
    }
    TakeAll(p.containers);
  }

  /** The body of `checkPodSecurity`'s outer `forEach`, for one pod. */
  method CheckPod(p: Pod) returns (fs: seq<Finding>)
    ensures fs == PodFindings(p)
  {
    var res := Resource("pod", p.namespace, "", p.name);
    fs := [];
    if p.securityContext.None? {
      fs := fs + [Finding("pod-security", "medium", res)];
    }
    if p.securityContext == Some(false) {
      fs := fs + [Finding("pod-security", "high", res)];
    }
    var rest := CheckContainers(p);
    fs := fs + rest;
  }

  /** The outer `forEach` of `checkPodSecurity`. */
  method CheckPodSecurity(pods: seq<Pod>) returns (fs: seq<Finding>)
    ensures fs == PodSecurity(pods)
  {
    fs := [];
    var i := 0;
    while i < |pods|
      invariant 0 <= i <= |pods|
      invariant fs == FlatMap(pods[..i], PodFindings)
    {
      FlatMapSnoc(pods, i, PodFindings);
      var mine := CheckPod(pods[i]);
      fs := fs + mine;
      i := i + 1;
    }
    TakeAll(pods);
  }

  /** A node: its taint count (0 when `spec.taints` is missing) and its
      `kubernetes.io/role` label (empty when missing). */
  datatype Node = Node(name: string, taints: nat, roleLabel: string)

  predicate Untainted(n: Node) { n.taints == 0 }
  predicate Unlabelled(n: Node) { n.roleLabel == "" }

  function NodeFindings(n: Node): seq<Finding> {
    var res := Resource("node", "", "", n.name);
    When(Untainted(n), Finding("node-security", "low", res)) + When(Unlabelled(n), Finding("node-security", "info", res))
  }

  /** `checkNodeSecurity(nodes)` */
  function NodeSecurity(nodes: seq<Node>): seq<Finding> {
    FlatMap(nodes, NodeFindings)
  }

  lemma NodeCounts(n: Node, p: Finding -> bool)
    ensures Count(NodeFindings(n), p) ==
      (if Untainted(n) && p(Finding("node-security", "low", Resource("node", "", "", n.name))) then 1 else 0) +
      (if Unlabelled(n) && p(Finding("node-security", "info", Resource("node", "", "", n.name))) then 1 else 0)
  {
    var res := Resource("node", "", "", n.name);
    CountAppend(When(Untainted(n), Finding("node-security", "low", res)), When(Unlabelled(n), Finding("node-security", "info", res)), p);
    CountWhen(Untainted(n), Finding("node-security", "low", res), p);
    CountWhen(Unlabelled(n), Finding("node-security", "info", res), p);
  }

  /** One `low` finding per untainted node. */
  lemma NodeLowCount(nodes: seq<Node>)
    ensures Count(NodeSecurity(nodes), IsLow) == Count(nodes, Untainted)
  {
    forall i | 0 <= i < |nodes|
      ensures Count(NodeFindings(nodes[i]), IsLow) == (if Untainted(nodes[i]) then 1 else 0)
    {
      NodeCounts(nodes[i], IsLow);
    }
    CountFlatMap(nodes, NodeFindings, IsLow, (n: Node) => if Untainted(n) then 1 else 0);
    SumIsCount(nodes, Untainted, (n: Node) => if Untainted(n) then 1 else 0);
  }

  /** One `info` finding per node without a role label. */
  lemma NodeInfoCount(nodes: seq<Node>)
    ensures Count(NodeSecurity(nodes), IsInfo) == Count(nodes, Unlabelled)
  {
    forall i | 0 <= i < |nodes|
      ensures Count(NodeFindings(nodes[i]), IsInfo) == (if Unlabelled(nodes[i]) then 1 else 0)
    {
      NodeCounts(nodes[i], IsInfo);
    }
    CountFlatMap(nodes, NodeFindings, IsInfo, (n: Node) => if Unlabelled(n) then 1 else 0);
    SumIsCount(nodes, Unlabelled, (n: Node) => if Unlabelled(n) then 1 else 0);
  }

  /** Every node finding is `low` or `info`. */
  lemma NodeOnlyLowInfo(nodes: seq<Node>)
    ensures Count(NodeSecurity(nodes), IsLow) + Count(NodeSecurity(nodes), IsInfo) == |NodeSecurity(nodes)|
  {
    FlatMapAll(nodes, NodeFindings, (f: Finding) => IsLow(f) || IsInfo(f));
    CountSplit(NodeSecurity(nodes), IsLow, IsInfo);
  }

  /** One `low` finding per untainted node and one `info` finding per node without a role
      label, and nothing else. */
  lemma NodeSecurityLaws(nodes: seq<Node>)
    ensures Count(NodeSecurity(nodes), IsLow) == Count(nodes, Untainted)
    ensures Count(NodeSecurity(nodes), IsInfo) == Count(nodes, Unlabelled)
    ensures Count(NodeSecurity(nodes), IsLow) + Count(NodeSecurity(nodes), IsInfo) == |NodeSecurity(nodes)|
  {
    NodeLowCount(nodes);
    NodeInfoCount(nodes);
    NodeOnlyLowInfo(nodes);
  }

  method CheckNodeSecurity(nodes: seq<Node>) returns (fs: seq<Finding>)
    ensures fs == NodeSecurity(nodes)
  {
    fs := [];
    var i := 0;
    while i < |nodes|
      invariant 0 <= i <= |nodes|
      invariant fs == FlatMap(nodes[..i], NodeFindings)
    {
      FlatMapSnoc(nodes, i, NodeFindings);
      var res := Resource("node", "", "", nodes[i].name);
      var before := fs;
      if nodes[i].taints == 0 {
        fs := fs + [Finding("node-security", "low", res)];
      }
      if nodes[i].roleLabel == "" {
        fs := fs + [Finding("node-security", "info", res)];
      }
      assert fs == before + NodeFindings(nodes[i]);
      i := i + 1;
    }
    TakeAll(nodes);
  }

  /** A namespace: its name and its `name` and `app.kubernetes.io/name` labels (empty when
      missing). */
  datatype Namespace = Namespace(name: string, nameLabel: string, appLabel: string)

  predicate IsDefault(ns: Namespace) { ns.name == "default" }
  predicate Undescribed(ns: Namespace) { ns.nameLabel == "" && ns.appLabel == "" }

  function NamespaceFindings(ns: Namespace): seq<Finding> {
    var res := Resource("namespace", "", "", ns.name);
    When(Undescribed(ns), Finding("namespace-security", "low", res)) +
    When(IsDefault(ns), Finding("namespace-security", "info", res))
  }

  /** `checkNamespaceSecurity(namespaces)` */
  function NamespaceSecurity(nss: seq<Namespace>): seq<Finding> {
    FlatMap(nss, NamespaceFindings)
  }

  lemma NamespaceCounts(ns: Namespace)
    ensures Count(NamespaceFindings(ns), IsLow) == (if Undescribed(ns) then 1 else 0)
    ensures Count(NamespaceFindings(ns), IsInfo) == (if IsDefault(ns) then 1 else 0)
  {
    var res := Resource("namespace", "", "", ns.name);
    var a := When(Undescribed(ns), Finding("namespace-security", "low", res));
    var b := When(IsDefault(ns), Finding("namespace-security", "info", res));
    CountAppend(a, b, IsLow);
    CountAppend(a, b, IsInfo);
    CountWhen(Undescribed(ns), Finding("namespace-security", "low", res), IsLow);
    CountWhen(Undescribed(ns), Finding("namespace-security", "low", res), IsInfo);
    CountWhen(IsDefault(ns), Finding("namespace-security", "info", res), IsLow);
    CountWhen(IsDefault(ns), Finding("namespace-security", "info", res), IsInfo);
  }

  /** One `low` finding per namespace with neither descriptive label. */
  lemma NamespaceLowCount(nss: seq<Namespace>)
    ensures Count(NamespaceSecurity(nss), IsLow) == Count(nss, Undescribed)
  {
    forall i | 0 <= i < |nss|
      ensures Count(NamespaceFindings(nss[i]), IsLow) == (if Undescribed(nss[i]) then 1 else 0)
    {
      NamespaceCounts(nss[i]);
    }
    CountFlatMap(nss, NamespaceFindings, IsLow, (ns: Namespace) => if Undescribed(ns) then 1 else 0);
    SumIsCount(nss, Undescribed, (ns: Namespace) => if Undescribed(ns) then 1 else 0);
  }

  /** One `info` finding per namespace literally named `default`. */
  lemma NamespaceInfoCount(nss: seq<Namespace>)
    ensures Count(NamespaceSecurity(nss), IsInfo) == Count(nss, IsDefault)
  {
    forall i | 0 <= i < |nss|
      ensures Count(NamespaceFindings(nss[i]), IsInfo) == (if IsDefault(nss[i]) then 1 else 0)
    {
      NamespaceCounts(nss[i]);
    }
    CountFlatMap(nss, NamespaceFindings, IsInfo, (ns: Namespace) => if IsDefault(ns) then 1 else 0);
    SumIsCount(nss, IsDefault, (ns: Namespace) => if IsDefault(ns) then 1 else 0);
  }

  /** One `low` finding per namespace with neither descriptive label, and one `info`
      finding per namespace literally named `default`. */
  lemma NamespaceSecurityLaws(nss: seq<Namespace>)
    ensures Count(NamespaceSecurity(nss), IsLow) == Count(nss, Undescribed)
    ensures Count(NamespaceSecurity(nss), IsInfo) == Count(nss, IsDefault)
  {
    NamespaceLowCount(nss);
    NamespaceInfoCount(nss);
  }

  method CheckNamespaceSecurity(nss: seq<Namespace>) returns (fs: seq<Finding>)
    ensures fs == NamespaceSecurity(nss)
  {
    fs := [];
    var i := 0;
    while i < |nss|
      invariant 0 <= i <= |nss|
      invariant fs == FlatMap(nss[..i], NamespaceFindings)
    {
      FlatMapSnoc(nss, i, NamespaceFindings);
      var res := Resource("namespace", "", "", nss[i].name);
      var before := fs;
      if nss[i].nameLabel == "" && nss[i].appLabel == "" {
        fs := fs + [Finding("namespace-security", "low", res)];
      }
      if nss[i].name == "default" {
        fs := fs + [Finding("namespace-security", "info", res)];
      }
      assert fs == before + NamespaceFindings(nss[i]);
      i := i + 1;
    }
    TakeAll(nss);
  }

  /** A Secret: its type, number of data keys and `last-applied-configuration` annotation
      (empty when missing). */
  datatype Secret = Secret(namespace: string, name: string, kind: string, dataKeys: nat, lastApplied: string)

  function SecretFindings(s: Secret): (fs: seq<Finding>)
    ensures forall j :: 0 <= j < |fs| ==> fs[j].severity == "medium" && fs[j].category == "secret-security"
    ensures |fs| == (if s.kind == "Opaque" && s.dataKeys > 0 then 1 else 0) + (if s.lastApplied != "" then 1 else 0)
  {
    var res := Resource("secret", s.namespace, "", s.name);
    When(s.kind == "Opaque" && s.dataKeys > 0, Finding("secret-security", "medium", res)) +
    When(s.lastApplied != "", Finding("secret-security", "medium", res))
  }

  /** `checkSecretSecurity(secrets)` */
  function SecretSecurity(secrets: seq<Secret>): seq<Finding> {
    FlatMap(secrets, SecretFindings)
  }

  /** How many findings the secret check draws for one secret: one for an Opaque
      secret with data keys, one for the last-applied annotation. */
  function SecretFindingCount(s: Secret): nat {
    (if s.kind == "Opaque" && s.dataKeys > 0 then 1 else 0) + (if s.lastApplied != "" then 1 else 0)
  }

  /** Every secret finding is a `medium` one; there are as many as the secrets'
      counts add up to, so an Opaque secret without data keys and without the
      annotation draws none. */
  lemma SecretSecurityLaws(secrets: seq<Secret>)
    ensures forall k :: 0 <= k < |SecretSecurity(secrets)| ==> SecretSecurity(secrets)[k].severity == "medium"
    ensures |SecretSecurity(secrets)| == SumNat(secrets, SecretFindingCount)
    ensures SecretSecurity([Secret("ns", "s", "Opaque", 0, "")]) == []
  {
    FlatMapAll(secrets, SecretFindings, (f: Finding) => f.severity == "medium");
    FlatMapLength(secrets, SecretFindings, SecretFindingCount);
    assert [Secret("ns", "s", "Opaque", 0, "")][..0] == [];
  }

  method CheckSecretSecurity(secrets: seq<Secret>) returns (fs: seq<Finding>)
    ensures fs == SecretSecurity(secrets)
  {
    fs := [];
    var i := 0;
    while i < |secrets|
      invariant 0 <= i <= |secrets|
      invariant fs == FlatMap(secrets[..i], SecretFindings)
    {
      assert secrets[..i + 1][..i] == secrets[..i];
      var s := secrets[i];
      var res := Resource("secret", s.namespace, "", s.name);
      var before := fs;
      if s.kind == "Opaque" && s.dataKeys > 0 {
        fs := fs + [Finding("secret-security", "medium", res)];
      }
      if s.lastApplied != "" {
        fs := fs + [Finding("secret-security", "medium", res)];
      }
      assert fs == before + SecretFindings(s);
      i := i + 1;
    }
    assert secrets[..i] == secrets;
  }

  datatype Subject = Subject(kind: string, name: string)

  /** A ClusterRoleBinding; `subjects` is missing on some bindings. */
  datatype ClusterRoleBinding = ClusterRoleBinding(name: string, subjects: Option<seq<Subject>>)

  datatype PolicyRule = PolicyRule(verbs: seq<string>, resources: seq<string>)

  /** A ClusterRole; `rules` can be missing. */
  datatype ClusterRole = ClusterRole(name: string, rules: Option<seq<PolicyRule>>)

  /** The TypeError `forEach` on a missing list throws. */
  const MissingList: Error := Invalid("Cannot read properties of undefined (reading 'forEach')")

  predicate Everyone(s: Subject) {
    s.kind == "Group" && (s.name == "system:authenticated" || s.name == "system:unauthenticated")
  }

  function SubjectFindings(crb: ClusterRoleBinding, s: Subject): (fs: seq<Finding>)
    ensures forall j :: 0 <= j < |fs| ==> fs[j].severity == "critical" && fs[j].resource.kind == "clusterrolebinding"
  {
    When(Everyone(s), Finding("rbac-security", "critical", Resource("clusterrolebinding", "", "", crb.name)))
  }

  function RuleFindings(cr: ClusterRole, r: PolicyRule): (fs: seq<Finding>)
    ensures forall j :: 0 <= j < |fs| ==> fs[j].severity == "high" && fs[j].resource.kind == "clusterrole"
  {
    var res := Resource("clusterrole", "", "", cr.name);
    When("*" in r.verbs, Finding("rbac-security", "high", res)) + When("*" in r.resources, Finding("rbac-security", "high", res))
  }

  function BindingFindings(crb: ClusterRoleBinding): seq<Finding>
    requires crb.subjects.Some?
  {
    FlatMap(crb.subjects.value, (s: Subject) => SubjectFindings(crb, s))
  }

  function RoleFindings(cr: ClusterRole): seq<Finding>
    requires cr.rules.Some?
  {
    FlatMap(cr.rules.value, (r: PolicyRule) => RuleFindings(cr, r))
  }

  predicate BindingsComplete(crbs: seq<ClusterRoleBinding>) {
    forall i :: 0 <= i < |crbs| ==> crbs[i].subjects.Some?
  }

  predicate RolesComplete(crs: seq<ClusterRole>) {
    forall i :: 0 <= i < |crs| ==> crs[i].rules.Some?
  }

  function AllBindingFindings(crbs: seq<ClusterRoleBinding>): seq<Finding>
    requires BindingsComplete(crbs)
    decreases |crbs|
  {
    if |crbs| == 0 then [] else AllBindingFindings(crbs[..|crbs| - 1]) + BindingFindings(crbs[|crbs| - 1])
  }

  function AllRoleFindings(crs: seq<ClusterRole>): seq<Finding>
    requires RolesComplete(crs)
    decreases |crs|
  {
    if |crs| == 0 then [] else AllRoleFindings(crs[..|crs| - 1]) + RoleFindings(crs[|crs| - 1])
  }

  /** `checkRBACSecurity(roles, clusterRoles, roleBindings, clusterRoleBindings)`: a
      missing subject or rule list throws. Roles and RoleBindings are not inspected. */
  function RbacSecurity(crs: seq<ClusterRole>, crbs: seq<ClusterRoleBinding>): Result<seq<Finding>> {
    if !BindingsComplete(crbs) || !RolesComplete(crs) then Fail(MissingList)
    else Ok(AllBindingFindings(crbs) + AllRoleFindings(crs))
  }

  function EveryoneCount(crb: ClusterRoleBinding): nat
    requires crb.subjects.Some?
  {
    Count(crb.subjects.value, Everyone)
  }

  function SumBindings(crbs: seq<ClusterRoleBinding>): nat
    requires BindingsComplete(crbs)
    decreases |crbs|
  {
    if |crbs| == 0 then 0 else SumBindings(crbs[..|crbs| - 1]) + EveryoneCount(crbs[|crbs| - 1])
  }

  lemma BindingCount(crb: ClusterRoleBinding)
    requires crb.subjects.Some?
    ensures |BindingFindings(crb)| == EveryoneCount(crb)
    ensures forall k :: 0 <= k < |BindingFindings(crb)| ==>
      BindingFindings(crb)[k].severity == "critical" && BindingFindings(crb)[k].resource.kind == "clusterrolebinding"
  {
    var f := (s: Subject) => SubjectFindings(crb, s);
    var ss := crb.subjects.value;
    forall i | 0 <= i < |ss| ensures Count(f(ss[i]), (x: Finding) => true) == (if Everyone(ss[i]) then 1 else 0) {
      CountWhen(Everyone(ss[i]), Finding("rbac-security", "critical", Resource("clusterrolebinding", "", "", crb.name)),
                (x: Finding) => true);
    }
    CountFlatMap(ss, f, (x: Finding) => true, (s: Subject) => if Everyone(s) then 1 else 0);
    SumIsCount(ss, Everyone, (s: Subject) => if Everyone(s) then 1 else 0);
    CountAll(BindingFindings(crb), (x: Finding) => true);
    FlatMapAll(ss, f, (x: Finding) => x.severity == "critical" && x.resource.kind == "clusterrolebinding");
  }

  lemma {:induction false} BindingFindingsCritical(crbs: seq<ClusterRoleBinding>)
    requires BindingsComplete(crbs)
    ensures forall k :: 0 <= k < |AllBindingFindings(crbs)| ==>
      AllBindingFindings(crbs)[k].severity == "critical" && AllBindingFindings(crbs)[k].resource.kind == "clusterrolebinding"
    ensures |AllBindingFindings(crbs)| == SumBindings(crbs)
    decreases |crbs|
  {
    if |crbs| > 0 {
      BindingFindingsCritical(crbs[..|crbs| - 1]);
      BindingCount(crbs[|crbs| - 1]);
      var a := AllBindingFindings(crbs[..|crbs| - 1]);
      var b := BindingFindings(crbs[|crbs| - 1]);
      assert forall k :: |a| <= k < |a + b| ==> (a + b)[k] == b[k - |a|];
    }
  }

  /** The wildcards of one rule: one for `'*'` among its verbs, one for `'*'` among its
      resources. */
  function Wildcards(r: PolicyRule): nat {
    (if "*" in r.verbs then 1 else 0) + (if "*" in r.resources then 1 else 0)
  }

  /** The wildcards over all rules of all ClusterRoles. */
  function SumRoles(crs: seq<ClusterRole>): nat
    requires RolesComplete(crs)
    decreases |crs|
  {
    if |crs| == 0 then 0 else SumRoles(crs[..|crs| - 1]) + SumNat(crs[|crs| - 1].rules.value, Wildcards)
  }

  lemma {:induction false} RoleFindingsHigh(crs: seq<ClusterRole>)
    requires RolesComplete(crs)
    ensures forall k :: 0 <= k < |AllRoleFindings(crs)| ==> AllRoleFindings(crs)[k].severity == "high"
    decreases |crs|
  {
    if |crs| > 0 {
      var cr := crs[|crs| - 1];
      RoleFindingsHigh(crs[..|crs| - 1]);
      FlatMapAll(cr.rules.value, (r: PolicyRule) => RuleFindings(cr, r), (x: Finding) => x.severity == "high");
      var a := AllRoleFindings(crs[..|crs| - 1]);
      var b := RoleFindings(cr);
      assert forall k :: |a| <= k < |a + b| ==> (a + b)[k] == b[k - |a|];
    }
  }

  /** One ClusterRole finding per wildcard. */
  lemma {:induction false} RoleFindingsCount(crs: seq<ClusterRole>)
    requires RolesComplete(crs)
    ensures |AllRoleFindings(crs)| == SumRoles(crs)
    decreases |crs|
  {
    if |crs| > 0 {
      var cr := crs[|crs| - 1];
      RoleFindingsCount(crs[..|crs| - 1]);
      FlatMapLength(cr.rules.value, (r: PolicyRule) => RuleFindings(cr, r), Wildcards);
    }
  }

  /** The critical findings come first, one per ClusterRoleBinding subject that is the
      authenticated or unauthenticated group; every finding after them is a `high`
      wildcard finding of a ClusterRole, one per rule with `'*'` among its verbs and one
      per rule with `'*'` among its resources. */
  lemma RbacSecurityLaws(crs: seq<ClusterRole>, crbs: seq<ClusterRoleBinding>)
    ensures RbacSecurity(crs, crbs).Fail? <==> !BindingsComplete(crbs) || !RolesComplete(crs)
    ensures RbacSecurity(crs, crbs).Ok? ==>
      var fs := RbacSecurity(crs, crbs).value;
      var nb := SumBindings(crbs);
      nb <= |fs| &&
      (forall k :: 0 <= k < nb ==> fs[k].severity == "critical" && fs[k].resource.kind == "clusterrolebinding") &&
      (forall k :: nb <= k < |fs| ==> fs[k].severity == "high") &&
      |fs| - nb == SumRoles(crs)
  {
    if BindingsComplete(crbs) && RolesComplete(crs) {
      BindingFindingsCritical(crbs);
      RoleFindingsHigh(crs);
      RoleFindingsCount(crs);
      var a := AllBindingFindings(crbs);
      var b := AllRoleFindings(crs);
      assert RbacSecurity(crs, crbs) == Ok(a + b);
      CriticalThenHigh(a, b);
    }
  }

  /** Critical binding findings followed by high role findings, as one list. */
  lemma CriticalThenHigh(a: seq<Finding>, b: seq<Finding>)
    requires forall k :: 0 <= k < |a| ==> a[k].severity == "critical" && a[k].resource.kind == "clusterrolebinding"
    requires forall k :: 0 <= k < |b| ==> b[k].severity == "high"
    ensures forall k :: 0 <= k < |a| ==> (a + b)[k].severity == "critical" && (a + b)[k].resource.kind == "clusterrolebinding"
    ensures forall k :: |a| <= k < |a + b| ==> (a + b)[k].severity == "high"
  {
    assert forall k :: |a| <= k < |a + b| ==> (a + b)[k] == b[k - |a|];
  }

  /** The inner loop over one binding's subjects. */
  method CheckSubjects(crb: ClusterRoleBinding, subjects: seq<Subject>) returns (fs: seq<Finding>)
    ensures fs == FlatMap(subjects, (s: Subject) => SubjectFindings(crb, s))
  {
    fs := [];
    var k := 0;
    while k < |subjects|
      invariant 0 <= k <= |subjects|
      invariant fs == FlatMap(subjects[..k], (s: Subject) => SubjectFindings(crb, s))
    {
      FlatMapSnoc(subjects, k, (s: Subject) => SubjectFindings(crb, s));
      if subjects[k].kind == "Group" && subjects[k].name == "system:authenticated" {
        fs := fs + [Finding("rbac-security", "critical", Resource("clusterrolebinding", "", "", crb.name))];
      }
      if subjects[k].kind == "Group" && subjects[k].name == "system:unauthenticated" {
        fs := fs + [Finding("rbac-security", "critical", Resource("clusterrolebinding", "", "", crb.name))];
      }
      k := k + 1;
    }
    TakeAll(subjects);
  }

  /** The inner loop over one ClusterRole's rules. */
  method CheckRules(cr: ClusterRole, rules: seq<PolicyRule>) returns (fs: seq<Finding>)
    ensures fs == FlatMap(rules, (r: PolicyRule) => RuleFindings(cr, r))
  {
    fs := [];
    var k := 0;
    while k < |rules|
      invariant 0 <= k <= |rules|
      invariant fs == FlatMap(rules[..k], (r: PolicyRule) => RuleFindings(cr, r))
    {
      FlatMapSnoc(rules, k, (r: PolicyRule) => RuleFindings(cr, r));
      var res := Resource("clusterrole", "", "", cr.name);
      var before := fs;
      if "*" in rules[k].verbs {
        fs := fs + [Finding("rbac-security", "high", res)];
      }
      if "*" in rules[k].resources {
        fs := fs + [Finding("rbac-security", "high", res)];
      }
      assert fs == before + RuleFindings(cr, rules[k]);
      k := k + 1;
    }
    TakeAll(rules);
  }

  /** One more complete binding extends the findings by its own. */
  lemma BindingsStep(crbs: seq<ClusterRoleBinding>, i: nat)
    requires i < |crbs| && crbs[i].subjects.Some? && BindingsComplete(crbs[..i])
    ensures BindingsComplete(crbs[..i + 1])
    ensures AllBindingFindings(crbs[..i + 1]) == AllBindingFindings(crbs[..i]) + BindingFindings(crbs[i])
  {
    var prefix := crbs[..i + 1];
    assert prefix[..i] == crbs[..i];
  }

  /** One more complete ClusterRole extends the findings by its own. */
  lemma RolesStep(crs: seq<ClusterRole>, j: nat)
    requires j < |crs| && crs[j].rules.Some? && RolesComplete(crs[..j])
    ensures RolesComplete(crs[..j + 1])
    ensures AllRoleFindings(crs[..j + 1]) == AllRoleFindings(crs[..j]) + RoleFindings(crs[j])
  {
    var prefix := crs[..j + 1];
    assert prefix[..j] == crs[..j];
  }

  /** The loop of `checkRBACSecurity` over the ClusterRoleBindings. */
  method CheckBindings(crbs: seq<ClusterRoleBinding>) returns (res: Result<seq<Finding>>)
    ensures res.Fail? <==> !BindingsComplete(crbs)
    ensures res.Fail? ==> res.error == MissingList
    ensures res.Ok? ==> res.value == AllBindingFindings(crbs)
  {
    var fs: seq<Finding> := [];
    var i := 0;
    while i < |crbs|
      invariant 0 <= i <= |crbs|
      invariant BindingsComplete(crbs[..i]) && fs == AllBindingFindings(crbs[..i])
    {
      if crbs[i].subjects.None? {
        assert !BindingsComplete(crbs) by { assert crbs[i].subjects.None?; }
        return Fail(MissingList);
      }
      BindingsStep(crbs, i);
      var more := CheckSubjects(crbs[i], crbs[i].subjects.value);
      fs := fs + more;
      i := i + 1;
    }
    TakeAll(crbs);
    res := Ok(fs);
  }

  /** The loop of `checkRBACSecurity` over the ClusterRoles. */
  method CheckRoles(crs: seq<ClusterRole>) returns (res: Result<seq<Finding>>)
    ensures res.Fail? <==> !RolesComplete(crs)
    ensures res.Fail? ==> res.error == MissingList
    ensures res.Ok? ==> res.value == AllRoleFindings(crs)
  {
    var fs: seq<Finding> := [];
    var j := 0;
    while j < |crs|
      invariant 0 <= j <= |crs|
      invariant RolesComplete(crs[..j]) && fs == AllRoleFindings(crs[..j])
    {
      if crs[j].rules.None? {
        assert !RolesComplete(crs) by { assert crs[j].rules.None?; }
        return Fail(MissingList);
      }
      RolesStep(crs, j);
      var more := CheckRules(crs[j], crs[j].rules.value);
      fs := fs + more;
      j := j + 1;
    }
    TakeAll(crs);
    res := Ok(fs);
  }

  /** `checkRBACSecurity`: the bindings first, then the roles. */
  method CheckRbacSecurity(crs: seq<ClusterRole>, crbs: seq<ClusterRoleBinding>) returns (res: Result<seq<Finding>>)
    ensures res == RbacSecurity(crs, crbs)
  {
    var bindings := CheckBindings(crbs);
    if bindings.Fail? {
      return Fail(MissingList);
    }
    var roles := CheckRoles(crs);
    if roles.Fail? {
      return Fail(MissingList);
    }
    res := Ok(bindings.value + roles.value);
  }

  // ------------------------------------------------------------------------
  // The module-level stores as an object
  // ------------------------------------------------------------------------

  /** The module's `auditLogs` and `securityEvents`. */
  class AuditStore {
    var logs: seq<AuditLog>
    var events: seq<SecurityEvent>

    ghost predicate Valid() reads this {
      |logs| <= AuditCap && |events| <= EventCap && AllInLifecycle(events)
    }

    constructor ()
      ensures Valid() && logs == [] && events == []
    {
      logs := [];
      events := [];
    }

    /** `logAuditEvent(event)` */
    method LogAuditEvent(input: AuditInput, id: string, now: int) returns (l: AuditLog)
      requires Valid()
      modifies this
      ensures Valid()
      ensures l == NewAuditLog(input, id, now)
      ensures logs == LogEvent(old(logs), input, id, now) && events == old(events)
    {
      l := NewAuditLog(input, id, now);
      logs := [l] + logs;
      if |logs| > AuditCap {
        logs := logs[..AuditCap];
      }
    }

    /** `createSecurityEvent(event)` */
    method CreateSecurityEvent(input: EventInput, id: string, now: int) returns (e: SecurityEvent)
      requires Valid()
      modifies this
      ensures Valid()
      ensures e == NewEvent(input, id, now)
      ensures events == CreateEvent(old(events), input, id, now) && logs == old(logs)
    {
      LifecyclePreserved(events, input, "", None, id, now);
      e := NewEvent(input, id, now);
      events := [e] + events;
      if |events| > EventCap {
        events := events[..EventCap];
      }
    }

    /** `acknowledgeSecurityEvent(eventId, acknowledgedBy)` */
    method AcknowledgeSecurityEvent(eventId: string, actor: Option<string>, now: int) returns (res: Result<SecurityEvent>)
      requires Valid()
      modifies this
      ensures Valid() && logs == old(logs)
      ensures var spec := AcknowledgeEvent(old(events), eventId, actor, now);
        (spec.Fail? ==> res == Fail(spec.error) && events == old(events)) &&
        (spec.Ok? ==> res == Ok(spec.value.1) && events == spec.value.0)
    {
      LifecyclePreserved(events, EventInput(None, None, None, None, None, None, None), eventId, actor, "", now);
      var i := IndexOf(events, EventId, eventId);
      if i < 0 {
        return Fail(NotFound("Security event not found: " + eventId));
      }
      var e := events[i].(acknowledged := true, acknowledgedBy := actor, acknowledgedAt := Some(now));
      events := events[i := e];
      res := Ok(e);
    }

    /** `resolveSecurityEvent(eventId, resolvedBy)` */
    method ResolveSecurityEvent(eventId: string, actor: Option<string>, now: int) returns (res: Result<SecurityEvent>)
      requires Valid()
      modifies this
      ensures Valid() && logs == old(logs)
      ensures var spec := ResolveEvent(old(events), eventId, actor, now);
        (spec.Fail? ==> res == Fail(spec.error) && events == old(events)) &&
        (spec.Ok? ==> res == Ok(spec.value.1) && events == spec.value.0)
    {
      LifecyclePreserved(events, EventInput(None, None, None, None, None, None, None), eventId, actor, "", now);
      var i := IndexOf(events, EventId, eventId);
      if i < 0 {
        return Fail(NotFound("Security event not found: " + eventId));
      }
      var e := events[i].(resolved := true, resolvedBy := actor, resolvedAt := Some(now), status := "resolved");
      events := events[i := e];
      res := Ok(e);
    }
  }
}
