/** Event analysis and event alerts of src/events.js: counting by type, reason
    and source, the recent and critical event lists sorted newest first, and one
    alert per Warning or Error event. */
module Events {
  import opened Js

  /** A timestamp string and the instant `new Date(text)` reads from it (None for an
      invalid date). */
  datatype Timestamp = Timestamp(text: string, millis: Option<int>)

  datatype InvolvedObject = InvolvedObject(kind: Option<string>, name: Option<string>, namespace: Option<string>)

  /** A cluster event: the fields the analysers read; None is a missing field. */
  datatype Event = Event(
    kind: Option<string>,
    reason: Option<string>,
    message: Option<string>,
    sourceComponent: Option<string>,
    involvedObject: Option<InvolvedObject>,
    lastTimestamp: Option<Timestamp>,
    firstTimestamp: Option<Timestamp>)

  /** `event.lastTimestamp || event.firstTimestamp` */
  function Stamp(e: Event): Option<Timestamp> {
    if e.lastTimestamp.Some? && e.lastTimestamp.value.text != "" then e.lastTimestamp else e.firstTimestamp
  }

  /** The instant the sort comparator reads, None when it is an invalid date. */
  function Time(e: Event): Option<int> {
    if Stamp(e).Some? then Stamp(e).value.millis else None
  }

  // ------------------------------------------------------------------------
  // Sorting newest first
  // ------------------------------------------------------------------------

  /** `x` sorts strictly before `y`: both instants are valid and `x` is later. */
  predicate Later(x: Event, y: Event) {
    Time(x).Some? && Time(y).Some? && Time(x).value > Time(y).value
  }

  /** Newest first among the events with a valid instant. */
  predicate NewestFirst(s: seq<Event>) {
    forall i, j :: 0 <= i < j < |s| ==> !Later(s[j], s[i])
  }

  /** Insert `x` before the first event it is later than (so after every event that is
      not earlier, keeping ties in arrival order). */
  function InsertByTime(s: seq<Event>, x: Event): seq<Event>
    decreases |s|
  {
    if |s| == 0 then [x]
    else if Later(x, s[0]) then [x] + s
    else [s[0]] + InsertByTime(s[1..], x)
  }

  /** The stable sort by `(a, b) => time(b) - time(a)`: insertion of each event in turn.
      An event without a valid instant is kept where insertion leaves it (the engine's
      order for such events is not specified). */
  function SortNewest(s: seq<Event>): seq<Event>
    decreases |s|
  {
    if |s| == 0 then [] else InsertByTime(SortNewest(s[..|s| - 1]), s[|s| - 1])
  }

  lemma {:induction false} InsertByTimePermutes(s: seq<Event>, x: Event)
    ensures multiset(InsertByTime(s, x)) == multiset(s) + multiset{x}
    ensures |InsertByTime(s, x)| == |s| + 1
    decreases |s|
  {
    if |s| > 0 && !Later(x, s[0]) {
      InsertByTimePermutes(s[1..], x);
      assert s == [s[0]] + s[1..];
    }
  }

  /** Putting in front an event later than the head of a newest-first list keeps it
      newest first. */
  lemma ConsLaterSorted(s: seq<Event>, x: Event)
    requires NewestFirst(s) && |s| > 0 && Later(x, s[0])
    ensures NewestFirst([x] + s)
  {
    var r := [x] + s;
    forall i, j | 0 <= i < j < |r| ensures !Later(r[j], r[i]) {
      if i == 0 {
        assert r[j] == s[j - 1];
        if j - 1 > 0 { assert !Later(s[j - 1], s[0]); }
      } else {
        assert r[i] == s[i - 1] && r[j] == s[j - 1];
      }
    }
  }

  /** When `x` goes behind the head, nothing after the head is later than it. */
  lemma BehindHead(s: seq<Event>, x: Event)
    requires NewestFirst(s) && |s| > 0 && !Later(x, s[0])
    ensures forall k :: 0 <= k < |InsertByTime(s[1..], x)| ==> !Later(InsertByTime(s[1..], x)[k], s[0])
  {
    var t := InsertByTime(s[1..], x);
    InsertByTimePermutes(s[1..], x);
    forall k | 0 <= k < |t| ensures !Later(t[k], s[0]) {
      assert t[k] in multiset(t);
      if t[k] != x {
        assert t[k] in multiset(s[1..]);
        var m :| 0 <= m < |s[1..]| && s[1..][m] == t[k];
        assert s[m + 1] == t[k];
      }
    }
  }

  /** Insertion keeps a newest-first list newest first. */
  lemma {:induction false} InsertByTimeSorted(s: seq<Event>, x: Event)
    requires NewestFirst(s)
    ensures NewestFirst(InsertByTime(s, x))
    decreases |s|
  {
    if |s| > 0 {
      if Later(x, s[0]) {
        ConsLaterSorted(s, x);
      } else {
        var r := InsertByTime(s, x);
        var t := InsertByTime(s[1..], x);
        assert NewestFirst(s[1..]) by {
          forall i, j | 0 <= i < j < |s[1..]| ensures !Later(s[1..][j], s[1..][i]) {
            assert s[1..][i] == s[i + 1] && s[1..][j] == s[j + 1];
          }
        }
        InsertByTimeSorted(s[1..], x);
        BehindHead(s, x);
        assert r == [s[0]] + t;
        forall i, j | 0 <= i < j < |r| ensures !Later(r[j], r[i]) {
          assert r[j] == t[j - 1];
          if i > 0 { assert r[i] == t[i - 1]; }
        }
      }
    }
  }

  /** Sorting permutes the events and leaves them newest first. */
  lemma {:induction false} SortNewestLaws(s: seq<Event>)
    ensures multiset(SortNewest(s)) == multiset(s)
    ensures |SortNewest(s)| == |s|
    ensures NewestFirst(SortNewest(s))
    decreases |s|
  {
    if |s| > 0 {
      SortNewestLaws(s[..|s| - 1]);
      InsertByTimePermutes(SortNewest(s[..|s| - 1]), s[|s| - 1]);
      InsertByTimeSorted(SortNewest(s[..|s| - 1]), s[|s| - 1]);
      assert s == s[..|s| - 1] + [s[|s| - 1]];
    }
  }

  // ------------------------------------------------------------------------
  // analyzeEvents
  // ------------------------------------------------------------------------

  datatype EventAnalysis = EventAnalysis(
    totalEvents: nat,
    byType: Dict<nat>,
    byReason: Dict<nat>,
    bySource: Dict<nat>,
    recentEvents: seq<Event>,
    criticalEvents: seq<Event>)

  const RecentCap := 10

  function TypeKey(e: Event): string { OrDefault(e.kind, "Normal") }
  function ReasonKey(e: Event): string { OrDefault(e.reason, "Unknown") }
  function SourceKey(e: Event): string { OrDefault(e.sourceComponent, "Unknown") }

  /** `event.type === 'Warning' || event.type === 'Error'` */
  predicate IsCritical(e: Event) {
    e.kind == Some("Warning") || e.kind == Some("Error")
  }

  function AnalysisOf(events: seq<Event>): EventAnalysis {
    EventAnalysis(|events|,
                  CountBy([], events, TypeKey), CountBy([], events, ReasonKey), CountBy([], events, SourceKey),
                  SortNewest(events[..Min(RecentCap, |events|)]),
                  SortNewest(Filter(events, IsCritical)))
  }

  /** Each of the three counting dictionaries sums to the number of events and counts
      each key exactly. */
  lemma CountsLaws(events: seq<Event>, k: string)
    ensures AnalysisOf(events).totalEvents == |events|
    ensures SumCounts(AnalysisOf(events).byType) == |events|
    ensures SumCounts(AnalysisOf(events).byReason) == |events|
    ensures SumCounts(AnalysisOf(events).bySource) == |events|
    ensures CountAt(AnalysisOf(events).byType, k) == CountKey(events, TypeKey, k)
    ensures CountAt(AnalysisOf(events).byReason, k) == CountKey(events, ReasonKey, k)
    ensures CountAt(AnalysisOf(events).bySource, k) == CountKey(events, SourceKey, k)
  {
    CountByLaws([], events, TypeKey, k);
    CountByLaws([], events, ReasonKey, k);
    CountByLaws([], events, SourceKey, k);
  }

  /** The recent list is the first ten events re-ordered newest first. */
  lemma RecentLaws(events: seq<Event>)
    ensures multiset(AnalysisOf(events).recentEvents) == multiset(events[..Min(10, |events|)])
    ensures NewestFirst(AnalysisOf(events).recentEvents)
  {
    SortNewestLaws(events[..Min(RecentCap, |events|)]);
  }

  /** The critical list is exactly the Warning and Error events, newest first. */
  lemma CriticalLaws(events: seq<Event>)
    ensures multiset(AnalysisOf(events).criticalEvents) == multiset(Filter(events, IsCritical))
    ensures NewestFirst(AnalysisOf(events).criticalEvents)
    ensures forall e :: e in AnalysisOf(events).criticalEvents <==> e in events && IsCritical(e)
  {
    var critical := Filter(events, IsCritical);
    SortNewestLaws(critical);
    var c := SortNewest(critical);
    assert AnalysisOf(events).criticalEvents == c;
    forall e ensures e in c <==> e in events && IsCritical(e) {
      assert e in c <==> e in multiset(c);
      assert e in critical <==> e in multiset(critical);
      if e in events && IsCritical(e) {
        var i :| 0 <= i < |events| && events[i] == e;
      }
    }
  }

  /** The recent list is the first ten events re-ordered newest first; the critical list
      is exactly the Warning and Error events, newest first. */
  lemma ListsLaws(events: seq<Event>)
    ensures multiset(AnalysisOf(events).recentEvents) == multiset(events[..Min(10, |events|)])
    ensures NewestFirst(AnalysisOf(events).recentEvents)
    ensures multiset(AnalysisOf(events).criticalEvents) == multiset(Filter(events, IsCritical))
    ensures NewestFirst(AnalysisOf(events).criticalEvents)
    ensures forall e :: e in AnalysisOf(events).criticalEvents <==> e in events && IsCritical(e)
  {
    RecentLaws(events);
    CriticalLaws(events);
  }

  /** The counters and the critical list after one more event. */
  lemma EventStep(events: seq<Event>, i: nat)
    requires i < |events|
    ensures CountBy([], events[..i + 1], TypeKey) == Bump(CountBy([], events[..i], TypeKey), TypeKey(events[i]))
    ensures CountBy([], events[..i + 1], ReasonKey) == Bump(CountBy([], events[..i], ReasonKey), ReasonKey(events[i]))
    ensures CountBy([], events[..i + 1], SourceKey) == Bump(CountBy([], events[..i], SourceKey), SourceKey(events[i]))
    ensures Filter(events[..i + 1], IsCritical) ==
      Filter(events[..i], IsCritical) + (if IsCritical(events[i]) then [events[i]] else [])
  {
    var prefix := events[..i + 1];
    assert prefix[..i] == events[..i];
    assert prefix[i] == events[i];
  }

  /** What the `forEach` of `analyzeEvents` has gathered after some events. */
  datatype EventScan = EventScan(byType: Dict<nat>, byReason: Dict<nat>, bySource: Dict<nat>, recent: seq<Event>, critical: seq<Event>)

  function ScanOf(events: seq<Event>): EventScan {
    EventScan(CountBy([], events, TypeKey), CountBy([], events, ReasonKey), CountBy([], events, SourceKey),
              events[..Min(RecentCap, |events|)], Filter(events, IsCritical))
  }

  /** The first ten events after one more event: it joins them while there are fewer
      than ten. */
  lemma RecentStep(events: seq<Event>, i: nat)
    requires i < |events|
    ensures events[..i + 1][..Min(RecentCap, i + 1)] ==
      if i < RecentCap then events[..i][..Min(RecentCap, i)] + [events[i]] else events[..i][..Min(RecentCap, i)]
  {
    if i < RecentCap {
      assert events[..i + 1][..i + 1] == events[..i] + [events[i]];
    }
  }

  /** The body of the `forEach` of `analyzeEvents`, for event `i`. */
  method ScanEvent(acc: EventScan, events: seq<Event>, i: nat) returns (acc': EventScan)
    requires i < |events| && acc == ScanOf(events[..i])
    ensures acc' == ScanOf(events[..i + 1])
  {
    EventStep(events, i);
    RecentStep(events, i);
    var e := events[i];
    var recent := acc.recent;
    if |recent| < RecentCap {
      recent := recent + [e];
    }
    var critical := acc.critical;
    if IsCritical(e) {
      critical := critical + [e];
    }
    acc' := EventScan(Bump(acc.byType, TypeKey(e)), Bump(acc.byReason, ReasonKey(e)), Bump(acc.bySource, SourceKey(e)),
                      recent, critical);
  }

  /** `analyzeEvents(events)`: one `forEach` pass that bumps three counters, keeps the
      first ten events and collects the critical ones, then the two sorts. */
  method AnalyzeEvents(events: seq<Event>) returns (a: EventAnalysis)
    ensures a == AnalysisOf(events)
  {
    var acc := EventScan([], [], [], [], []);
    var i := 0;
    while i < |events|
      invariant 0 <= i <= |events|
      invariant acc == ScanOf(events[..i])
    {
      acc := ScanEvent(acc, events, i);
      i := i + 1;
    }
    assert events[..i] == events;
    a := EventAnalysis(|events|, acc.byType, acc.byReason, acc.bySource, SortNewest(acc.recent), SortNewest(acc.critical));
  }

  // ------------------------------------------------------------------------
  // generateAlerts
  // ------------------------------------------------------------------------

  datatype AlertObject = AlertObject(kind: string, name: string, namespace: string)

  datatype EventAlert = EventAlert(
    level: string, message: string, source: string, involvedObject: AlertObject, timestamp: Option<Timestamp>)

  /** The alert pushed for a critical event, with its fallbacks. */
  function AlertFor(e: Event): EventAlert {
    var o := e.involvedObject;
    EventAlert(
      if e.kind == Some("Error") then "Critical" else "Warning",
      OrDefault(e.message, OrDefault(e.reason, "Unknown event")),
      OrDefault(e.sourceComponent, "Unknown"),
      AlertObject(OrDefault(if o.Some? then o.value.kind else None, "Unknown"),
                  OrDefault(if o.Some? then o.value.name else None, "Unknown"),
                  OrDefault(if o.Some? then o.value.namespace else None, "default")),
      Stamp(e))
  }

  function AlertsOf(events: seq<Event>): seq<EventAlert> {
    Map(Filter(events, IsCritical), AlertFor)
  }

  /** The alerts after one more event. */
  lemma AlertsStep(events: seq<Event>, i: nat)
    requires i < |events|
    ensures AlertsOf(events[..i + 1]) == AlertsOf(events[..i]) + (if IsCritical(events[i]) then [AlertFor(events[i])] else [])
  {
    FilterSnoc(events, i, IsCritical);
    MapSnoc(Filter(events[..i], IsCritical), events[i], AlertFor);
  }

  /** `generateAlerts(events)` */
  method GenerateAlerts(events: seq<Event>) returns (alerts: seq<EventAlert>)
    ensures alerts == AlertsOf(events)
  {
    alerts := [];
    var i := 0;
    while i < |events|
      invariant 0 <= i <= |events|
      invariant alerts == AlertsOf(events[..i])
    {
      AlertsStep(events, i);
      if IsCritical(events[i]) {
        alerts := alerts + [AlertFor(events[i])];
      }
      i := i + 1;
    }
    TakeAll(events);
  }

  /** `r` is `v || d`: a present non-empty `v`, otherwise `d`. */
  predicate Fallback(v: Option<string>, d: string, r: string) {
    (v.Some? && v.value != "" ==> r == v.value) && (v.None? || v == Some("") ==> r == d)
  }

  /** One alert per Warning or Error event, in input order; the level is Critical exactly
      for Error events and Warning exactly for Warning events; the message falls back to
      the reason, then to `Unknown event`, the source to `Unknown`, the object's kind and
      name to `Unknown` and its namespace to `default`, also when the object is missing;
      the time is the last timestamp, else the first. */
  lemma AlertsLaws(events: seq<Event>)
    ensures |AlertsOf(events)| == Count(events, IsCritical)
    ensures forall i :: 0 <= i < |AlertsOf(events)| ==>
      var e := Filter(events, IsCritical)[i];
      var a := AlertsOf(events)[i];
      e in events && IsCritical(e) &&
      (a.level == "Critical" <==> e.kind == Some("Error")) &&
      (a.level == "Warning" <==> e.kind == Some("Warning")) &&
      (e.message.Some? && e.message.value != "" ==> a.message == e.message.value) &&
      ((e.message.None? || e.message == Some("")) && e.reason.Some? && e.reason.value != "" ==>
        a.message == e.reason.value) &&
      ((e.message.None? || e.message == Some("")) && (e.reason.None? || e.reason == Some("")) ==>
        a.message == "Unknown event") &&
      (e.sourceComponent.Some? && e.sourceComponent.value != "" ==> a.source == e.sourceComponent.value) &&
      ((e.sourceComponent.None? || e.sourceComponent == Some("")) ==> a.source == "Unknown") &&
      (e.involvedObject.None? ==> a.involvedObject == AlertObject("Unknown", "Unknown", "default")) &&
      (e.involvedObject.Some? ==>
        Fallback(e.involvedObject.value.kind, "Unknown", a.involvedObject.kind) &&
        Fallback(e.involvedObject.value.name, "Unknown", a.involvedObject.name) &&
        Fallback(e.involvedObject.value.namespace, "default", a.involvedObject.namespace)) &&
      a.timestamp == Stamp(e)
    ensures IsSubsequence(Filter(events, IsCritical), events)
  {
    CountIsFilterLength(events, IsCritical);
    FilterIsSubsequence(events, IsCritical);
  }
}
