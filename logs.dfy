/** The log analysers of src/logs.js: the per-line level cascade, stack-trace, security
    and keyword detection of `analyzePodLogs`, its recommendations, `searchLogs` (plain
    text), `filterLogs` and `getLogStats`. Lines are the pieces of `split('\n')`, and
    lower-casing is ASCII. */
module Logs {
  import opened Js

  // ------------------------------------------------------------------------
  // Lines and levels
  // ------------------------------------------------------------------------

  /** `logs.split('\n')` */
  function Lines(logs: string): (r: seq<string>)
    ensures |r| == Occurrences(logs, '\n') + 1
  {
    SplitLaws(logs, '\n');
    Split(logs, '\n')
  }

  /** A reported line: `{ line: index + 1, content: line }`. */
  datatype LineRef = LineRef(line: nat, content: string)

  datatype Level = Error | Fatal | Warning | Info | Debug | Trace | Unleveled

  /** The `logLevels` record. */
  datatype LevelCounts = LevelCounts(error: nat, warning: nat, info: nat, debug: nat, trace: nat, fatal: nat) {
    /** One more line of level `lv`; an unleveled line changes nothing. */
    function Add(lv: Level): LevelCounts {
      match lv
      case Error => this.(error := error + 1)
      case Fatal => this.(fatal := fatal + 1)
      case Warning => this.(warning := warning + 1)
      case Info => this.(info := info + 1)
      case Debug => this.(debug := debug + 1)
      case Trace => this.(trace := trace + 1)
      case Unleveled => this
    }

    function Sum(): nat { error + warning + info + debug + trace + fatal }
  }

  const NoCounts := LevelCounts(0, 0, 0, 0, 0, 0)

  /** The cascade of `analyzePodLogs`: the first of `error`/`err`, `fatal`,
      `warning`/`warn`, `info`, `debug`, `trace` the lower-cased line contains. */
  function LevelOf(line: string): Level {
    var l := Lower(line);
    if Includes(l, "error") || Includes(l, "err") then Error
    else if Includes(l, "fatal") then Fatal
    else if Includes(l, "warning") || Includes(l, "warn") then Warning
    else if Includes(l, "info") then Info
    else if Includes(l, "debug") then Debug
    else if Includes(l, "trace") then Trace
    else Unleveled
  }

  /** A line pushed to `errors`: an error or a fatal one. */
  predicate IsErrorLine(line: string) { LevelOf(line) == Error || LevelOf(line) == Fatal }

  /** A line pushed to `warnings`. */
  predicate IsWarningLine(line: string) { LevelOf(line) == Warning }

  predicate IsUnleveled(line: string) { LevelOf(line) == Unleveled }

  /** Since `error` contains `err`, a line is an error line exactly when it contains `err`;
      each later level applies only when no earlier keyword occurs. */
  lemma CascadeLaws(line: string)
    ensures LevelOf(line) == Error <==> Includes(Lower(line), "err")
    ensures LevelOf(line) == Fatal <==> !Includes(Lower(line), "err") && Includes(Lower(line), "fatal")
    ensures LevelOf(line) == Warning <==>
      !Includes(Lower(line), "err") && !Includes(Lower(line), "fatal") && Includes(Lower(line), "warn")
    ensures LevelOf(line) == Unleveled ==>
      forall w :: w in ["err", "fatal", "warn", "info", "debug", "trace"] ==> !Includes(Lower(line), w)
  {
    var l := Lower(line);
    if Includes(l, "error") { IncludesPrefixOf(l, "error", "err"); }
    if Includes(l, "warning") { IncludesPrefixOf(l, "warning", "warn"); }
  }

  /** Counting the levels of the lines one by one, as the `logLevels` record does. */
  function Tally(lines: seq<string>, classify: string -> Level): LevelCounts
    decreases |lines|
  {
    if |lines| == 0 then NoCounts else Tally(lines[..|lines| - 1], classify).Add(classify(lines[|lines| - 1]))
  }

  /** Every line is counted under exactly one level or under none. */
  lemma {:induction false} TallyCovers(lines: seq<string>, classify: string -> Level, unleveled: string -> bool)
    requires forall x :: unleveled(x) == (classify(x) == Unleveled)
    ensures Tally(lines, classify).Sum() + Count(lines, unleveled) == |lines|
    decreases |lines|
  {
    if |lines| > 0 { TallyCovers(lines[..|lines| - 1], classify, unleveled); }
  }

  /** The lines of `lines` satisfying `p`, numbered from 1, in order: what a
      `lines.forEach((line, index) => { if (…) results.push({ line: index + 1, content: line }) })`
      collects. */
  function Keep(lines: seq<string>, p: string -> bool): seq<LineRef>
    decreases |lines|
  {
    if |lines| == 0 then []
    else
      var n := |lines|;
      Keep(lines[..n - 1], p) + (if p(lines[n - 1]) then [LineRef(n, lines[n - 1])] else [])
  }

  /** One kept line per line satisfying `p`. */
  lemma {:induction false} KeepCount(lines: seq<string>, p: string -> bool)
    ensures |Keep(lines, p)| == Count(lines, p)
    decreases |lines|
  {
    if |lines| > 0 { KeepCount(lines[..|lines| - 1], p); }
  }

  /** Every kept line satisfies `p` and carries its 1-based number, in increasing order. */
  lemma {:induction false} KeepSound(lines: seq<string>, p: string -> bool)
    ensures forall k :: 0 <= k < |Keep(lines, p)| ==>
      1 <= Keep(lines, p)[k].line <= |lines| && lines[Keep(lines, p)[k].line - 1] == Keep(lines, p)[k].content &&
      p(Keep(lines, p)[k].content)
    ensures forall a, b :: 0 <= a < b < |Keep(lines, p)| ==> Keep(lines, p)[a].line < Keep(lines, p)[b].line
    decreases |lines|
  {
    if |lines| > 0 {
      var n := |lines|;
      var front := lines[..n - 1];
      KeepSound(front, p);
      var kf := Keep(front, p);
      var k := Keep(lines, p);
      assert k == kf + (if p(lines[n - 1]) then [LineRef(n, lines[n - 1])] else []);
      assert forall j :: 0 <= j < |kf| ==> k[j] == kf[j] && kf[j].line <= n - 1 && front[kf[j].line - 1] == lines[kf[j].line - 1];
    }
  }

  /** Every line satisfying `p` is kept, under its 1-based number. */
  lemma {:induction false} KeepComplete(lines: seq<string>, p: string -> bool)
    ensures forall i :: 0 <= i < |lines| && p(lines[i]) ==> LineRef(i + 1, lines[i]) in Keep(lines, p)
    decreases |lines|
  {
    if |lines| > 0 {
      var n := |lines|;
      var front := lines[..n - 1];
      KeepComplete(front, p);
      var kf := Keep(front, p);
      var k := Keep(lines, p);
      assert k == kf + (if p(lines[n - 1]) then [LineRef(n, lines[n - 1])] else []);
      forall i | 0 <= i < n && p(lines[i])
        ensures LineRef(i + 1, lines[i]) in k
      {
        if i < n - 1 {
          assert front[i] == lines[i];
          assert LineRef(i + 1, front[i]) in kf;
        }
      }
    }
  }

  /** The kept lines are exactly the lines satisfying `p`, each with its 1-based number,
      in increasing order. */
  lemma KeepLaws(lines: seq<string>, p: string -> bool)
    ensures |Keep(lines, p)| == Count(lines, p)
    ensures forall k :: 0 <= k < |Keep(lines, p)| ==>
      1 <= Keep(lines, p)[k].line <= |lines| && lines[Keep(lines, p)[k].line - 1] == Keep(lines, p)[k].content &&
      p(Keep(lines, p)[k].content)
    ensures forall i :: 0 <= i < |lines| && p(lines[i]) ==> LineRef(i + 1, lines[i]) in Keep(lines, p)
    ensures forall a, b :: 0 <= a < b < |Keep(lines, p)| ==> Keep(lines, p)[a].line < Keep(lines, p)[b].line
  {
    KeepCount(lines, p);
    KeepSound(lines, p);
    KeepComplete(lines, p);
  }

  /** Keeping by two predicates that agree everywhere keeps the same lines. */
  lemma {:induction false} KeepExt(lines: seq<string>, p: string -> bool, q: string -> bool)
    requires forall x :: p(x) == q(x)
    ensures Keep(lines, p) == Keep(lines, q)
    decreases |lines|
  {
    if |lines| > 0 { KeepExt(lines[..|lines| - 1], p, q); }
  }

  /** `errors` holds exactly the error and fatal lines and `warnings` the warning lines,
      so their lengths are the counters kept beside them. */
  lemma {:induction false} ErrorWarningTally(lines: seq<string>)
    ensures |Keep(lines, IsErrorLine)| == Tally(lines, LevelOf).error + Tally(lines, LevelOf).fatal
    ensures |Keep(lines, IsWarningLine)| == Tally(lines, LevelOf).warning
    decreases |lines|
  {
    if |lines| > 0 { ErrorWarningTally(lines[..|lines| - 1]); }
  }

  // ------------------------------------------------------------------------
  // Stack traces, security events and keyword statistics
  // ------------------------------------------------------------------------

  /** `includes('stack trace') || includes('at ') && includes('(')` on the lower-cased line. */
  predicate IsStackTrace(line: string) {
    var l := Lower(line);
    Includes(l, "stack trace") || (Includes(l, "at ") && Includes(l, "("))
  }

  const SecurityKeywords: seq<string> :=
    ["unauthorized", "forbidden", "authentication failed", "permission denied", "security", "xss", "sql injection", "csrf"]

  const StatKeywords: seq<string> :=
    ["timeout", "retry", "connection", "database", "cache", "api", "http", "https", "ssl", "tls", "memory", "cpu", "disk", "network"]

  datatype SecurityEvent = SecurityEvent(line: nat, content: string, kind: string)

  /** The security events one line raises: one per keyword it contains, in keyword order. */
  function Hits(r: LineRef, keywords: seq<string>): seq<SecurityEvent>
    decreases |keywords|
  {
    if |keywords| == 0 then []
    else
      var kw := keywords[|keywords| - 1];
      Hits(r, keywords[..|keywords| - 1]) +
        (if Includes(Lower(r.content), kw) then [SecurityEvent(r.line, r.content, kw)] else [])
  }

  /** One event per keyword the line contains, and none when it contains none. */
  lemma {:induction false} HitsLaws(r: LineRef, keywords: seq<string>)
    ensures |Hits(r, keywords)| <= |keywords|
    ensures forall k :: 0 <= k < |Hits(r, keywords)| ==>
      Hits(r, keywords)[k].kind in keywords && Hits(r, keywords)[k].line == r.line &&
      Hits(r, keywords)[k].content == r.content && Includes(Lower(r.content), Hits(r, keywords)[k].kind)
    ensures |Hits(r, keywords)| == 0 <==> forall k :: 0 <= k < |keywords| ==> !Includes(Lower(r.content), keywords[k])
    decreases |keywords|
  {
    if |keywords| > 0 {
      var front := keywords[..|keywords| - 1];
      HitsLaws(r, front);
      assert forall k :: 0 <= k < |front| ==> front[k] == keywords[k];
    }
  }

  function SecurityEventsOf(lines: seq<string>): seq<SecurityEvent>
    decreases |lines|
  {
    if |lines| == 0 then []
    else
      var n := |lines|;
      SecurityEventsOf(lines[..n - 1]) + Hits(LineRef(n, lines[n - 1]), SecurityKeywords)
  }

  /** Event `e` names a line of `lines` (1-based) and a security keyword that line contains. */
  predicate RaisedBy(lines: seq<string>, e: SecurityEvent) {
    e.kind in SecurityKeywords && 1 <= e.line <= |lines| && lines[e.line - 1] == e.content &&
    Includes(Lower(e.content), e.kind)
  }

  /** Every security event names a line and a keyword that line contains. */
  lemma {:induction false} SecurityEventsSound(lines: seq<string>)
    ensures forall k :: 0 <= k < |SecurityEventsOf(lines)| ==> RaisedBy(lines, SecurityEventsOf(lines)[k])
    decreases |lines|
  {
    if |lines| > 0 {
      var n := |lines|;
      var front := lines[..n - 1];
      SecurityEventsSound(front);
      var r := LineRef(n, lines[n - 1]);
      HitsLaws(r, SecurityKeywords);
      var ef := SecurityEventsOf(front);
      var h := Hits(r, SecurityKeywords);
      var all := SecurityEventsOf(lines);
      assert all == ef + h;
      forall k | 0 <= k < |all|
        ensures RaisedBy(lines, all[k])
      {
        if k < |ef| {
          var e := ef[k];
          assert RaisedBy(front, e);
          assert front[e.line - 1] == lines[e.line - 1];
        } else {
          assert all[k] == h[k - |ef|];
        }
      }
    }
  }

  /** Each line raises at most one event per keyword. */
  lemma {:induction false} SecurityEventsBound(lines: seq<string>)
    ensures |SecurityEventsOf(lines)| <= |SecurityKeywords| * |lines|
    decreases |lines|
  {
    if |lines| > 0 {
      SecurityEventsBound(lines[..|lines| - 1]);
      HitsLaws(LineRef(|lines|, lines[|lines| - 1]), SecurityKeywords);
    }
  }

  /** There is at least one security event exactly when some line contains some keyword. */
  lemma {:induction false} SecurityEventsAny(lines: seq<string>)
    ensures |SecurityEventsOf(lines)| > 0 <==>
      exists i, k :: 0 <= i < |lines| && 0 <= k < |SecurityKeywords| && Includes(Lower(lines[i]), SecurityKeywords[k])
    decreases |lines|
  {
    if |lines| > 0 {
      var n := |lines|;
      var front := lines[..n - 1];
      SecurityEventsAny(front);
      HitsLaws(LineRef(n, lines[n - 1]), SecurityKeywords);
      if exists i, k :: 0 <= i < n - 1 && 0 <= k < |SecurityKeywords| && Includes(Lower(front[i]), SecurityKeywords[k]) {
        var i, k :| 0 <= i < n - 1 && 0 <= k < |SecurityKeywords| && Includes(Lower(front[i]), SecurityKeywords[k]);
        assert lines[i] == front[i];
      }
      if exists i, k :: 0 <= i < n && 0 <= k < |SecurityKeywords| && Includes(Lower(lines[i]), SecurityKeywords[k]) {
        var i, k :| 0 <= i < n && 0 <= k < |SecurityKeywords| && Includes(Lower(lines[i]), SecurityKeywords[k]);
        if i < n - 1 {
          assert lines[i] == front[i];
        }
      }
    }
  }

  predicate Distinct(s: seq<string>) {
    forall i, j :: 0 <= i < j < |s| ==> s[i] != s[j]
  }

  /** `keywords.forEach(k => { if (line includes k) stats[k] = (stats[k] || 0) + 1 })` */
  function BumpKeywords(d: Dict<nat>, lower: string, keywords: seq<string>): Dict<nat>
    decreases |keywords|
  {
    if |keywords| == 0 then d
    else
      var before := BumpKeywords(d, lower, keywords[..|keywords| - 1]);
      var kw := keywords[|keywords| - 1];
      if Includes(lower, kw) then Bump(before, kw) else before
  }

  /** With distinct keywords, each keyword the line contains is counted once more. */
  lemma {:induction false} BumpKeywordsAt(d: Dict<nat>, lower: string, keywords: seq<string>, k: string)
    requires Distinct(keywords)
    ensures CountAt(BumpKeywords(d, lower, keywords), k) == CountAt(d, k) + (if k in keywords && Includes(lower, k) then 1 else 0)
    ensures DistinctKeys(d) ==> DistinctKeys(BumpKeywords(d, lower, keywords))
    decreases |keywords|
  {
    if |keywords| > 0 {
      var front := keywords[..|keywords| - 1];
      var kw := keywords[|keywords| - 1];
      assert Distinct(front);
      BumpKeywordsAt(d, lower, front, k);
      if Includes(lower, kw) {
        BumpLaws(BumpKeywords(d, lower, front), kw, k);
      }
      assert keywords == front + [kw];
      assert k == kw ==> k !in front;
    }
  }

  function KeywordStatsOf(lines: seq<string>): Dict<nat>
    decreases |lines|
  {
    if |lines| == 0 then [] else BumpKeywords(KeywordStatsOf(lines[..|lines| - 1]), Lower(lines[|lines| - 1]), StatKeywords)
  }

  /** Number of lines whose lower-cased text contains `k`. */
  function Mentions(lines: seq<string>, k: string): nat
    decreases |lines|
  {
    if |lines| == 0 then 0 else Mentions(lines[..|lines| - 1], k) + (if Includes(Lower(lines[|lines| - 1]), k) then 1 else 0)
  }

  lemma StatKeywordsDistinct()
    ensures Distinct(StatKeywords)
  {
  }

  /** `keywordStats[k]` counts the lines mentioning `k` for the fourteen tracked keywords
      and is absent for any other. */
  lemma {:induction false} KeywordStatsLaws(lines: seq<string>, k: string)
    ensures CountAt(KeywordStatsOf(lines), k) == (if k in StatKeywords then Mentions(lines, k) else 0)
    ensures DistinctKeys(KeywordStatsOf(lines))
    decreases |lines|
  {
    if |lines| > 0 {
      StatKeywordsDistinct();
      KeywordStatsLaws(lines[..|lines| - 1], k);
      BumpKeywordsAt(KeywordStatsOf(lines[..|lines| - 1]), Lower(lines[|lines| - 1]), StatKeywords, k);
    }
  }

  /** Substring counting makes every `https` line an `http` line too. */
  lemma {:induction false} HttpsCountsAsHttp(lines: seq<string>)
    ensures Mentions(lines, "https") <= Mentions(lines, "http")
    decreases |lines|
  {
    if |lines| > 0 {
      HttpsCountsAsHttp(lines[..|lines| - 1]);
      var l := Lower(lines[|lines| - 1]);
      if Includes(l, "https") { IncludesPrefixOf(l, "https", "http"); }
    }
  }

  // ------------------------------------------------------------------------
  // generateLogRecommendations
  // ------------------------------------------------------------------------

  datatype Topic = Errors | Warnings | StackTraces | SlowRequests | SecurityEvents | Timeouts | Retries | MemoryUse

  /** A recommendation: its severity, what it is about and the number its message quotes
      (none for the keyword-based ones). */
  datatype Recommendation = Recommendation(severity: string, topic: Topic, count: Option<nat>)

  /** What the recommendations read from an analysis. */
  datatype LogFindings = LogFindings(
    errorCount: nat, warningCount: nat, stackTraces: nat, slowRequests: nat, securityEvents: nat, keywordStats: Dict<nat>)

  predicate HasTopic(recs: seq<Recommendation>, t: Topic) {
    exists i :: 0 <= i < |recs| && recs[i].topic == t
  }

  function SeverityOf(t: Topic): string {
    if t == Errors || t == StackTraces || t == SecurityEvents then "high" else "medium"
  }

  /** `generateLogRecommendations(analysis)`: eight independent checks in a fixed order. */
  function GenerateLogRecommendations(f: LogFindings): seq<Recommendation> {
    CountRecommendations(f) + KeywordRecommendations(f)
  }

  /** The checks on the error, warning, stack-trace, slow-request and security-event counts. */
  function CountRecommendations(f: LogFindings): seq<Recommendation> {
    When(f.errorCount > 10, Recommendation("high", Errors, Some(f.errorCount))) +
    When(f.warningCount > 20, Recommendation("medium", Warnings, Some(f.warningCount))) +
    When(f.stackTraces > 0, Recommendation("high", StackTraces, Some(f.stackTraces))) +
    When(f.slowRequests > 5, Recommendation("medium", SlowRequests, Some(f.slowRequests))) +
    When(f.securityEvents > 0, Recommendation("high", SecurityEvents, Some(f.securityEvents)))
  }

  /** The checks on the keyword counters. */
  function KeywordRecommendations(f: LogFindings): seq<Recommendation> {
    When(CountAt(f.keywordStats, "timeout") > 5, Recommendation("medium", Timeouts, None)) +
    When(CountAt(f.keywordStats, "retry") > 5, Recommendation("medium", Retries, None)) +
    When(CountAt(f.keywordStats, "memory") > 10, Recommendation("medium", MemoryUse, None))
  }

  /** Every recommendation carries the severity of its topic. */
  predicate Rated(recs: seq<Recommendation>) {
    forall i :: 0 <= i < |recs| ==> recs[i].severity == SeverityOf(recs[i].topic)
  }

  lemma HasTopicAppend(a: seq<Recommendation>, b: seq<Recommendation>, t: Topic)
    ensures HasTopic(a + b, t) <==> HasTopic(a, t) || HasTopic(b, t)
  {
    if HasTopic(a + b, t) {
      var i :| 0 <= i < |a + b| && (a + b)[i].topic == t;
      if i >= |a| { assert b[i - |a|] == (a + b)[i]; } else { assert a[i] == (a + b)[i]; }
    }
    if HasTopic(a, t) {
      var i :| 0 <= i < |a| && a[i].topic == t;
      assert (a + b)[i] == a[i];
    }
    if HasTopic(b, t) {
      var i :| 0 <= i < |b| && b[i].topic == t;
      assert (a + b)[|a| + i] == b[i];
    }
  }

  lemma HasTopicWhen(c: bool, r: Recommendation, t: Topic)
    ensures HasTopic(When(c, r), t) <==> c && r.topic == t
  {
    if c { assert When(c, r)[0] == r; }
  }

  /** The condition under which the check for `t` fires. */
  predicate Fires(f: LogFindings, t: Topic) {
    match t
    case Errors => f.errorCount > 10
    case Warnings => f.warningCount > 20
    case StackTraces => f.stackTraces > 0
    case SlowRequests => f.slowRequests > 5
    case SecurityEvents => f.securityEvents > 0
    case Timeouts => CountAt(f.keywordStats, "timeout") > 5
    case Retries => CountAt(f.keywordStats, "retry") > 5
    case MemoryUse => CountAt(f.keywordStats, "memory") > 10
  }

  /** Appending a conditional recommendation adds its topic exactly when it fires. */
  lemma HasTopicSnoc(a: seq<Recommendation>, c: bool, r: Recommendation, t: Topic)
    ensures HasTopic(a + When(c, r), t) <==> HasTopic(a, t) || (c && r.topic == t)
  {
    HasTopicAppend(a, When(c, r), t);
    HasTopicWhen(c, r, t);
  }

  predicate IsKeywordTopic(t: Topic) { t == Timeouts || t == Retries || t == MemoryUse }

  /** The count-based checks recommend on `t` exactly when `t` is one of theirs and fires. */
  lemma CountRecommendationTopic(f: LogFindings, t: Topic)
    ensures HasTopic(CountRecommendations(f), t) <==> !IsKeywordTopic(t) && Fires(f, t)
  {
    var r1 := Recommendation("high", Errors, Some(f.errorCount));
    var r2 := Recommendation("medium", Warnings, Some(f.warningCount));
    var r3 := Recommendation("high", StackTraces, Some(f.stackTraces));
    var r4 := Recommendation("medium", SlowRequests, Some(f.slowRequests));
    var r5 := Recommendation("high", SecurityEvents, Some(f.securityEvents));
    var a1 := When(f.errorCount > 10, r1);
    var a2 := a1 + When(f.warningCount > 20, r2);
    var a3 := a2 + When(f.stackTraces > 0, r3);
    var a4 := a3 + When(f.slowRequests > 5, r4);
    assert CountRecommendations(f) == a4 + When(f.securityEvents > 0, r5);
    HasTopicWhen(f.errorCount > 10, r1, t);
    HasTopicSnoc(a1, f.warningCount > 20, r2, t);
    HasTopicSnoc(a2, f.stackTraces > 0, r3, t);
    HasTopicSnoc(a3, f.slowRequests > 5, r4, t);
    HasTopicSnoc(a4, f.securityEvents > 0, r5, t);
    var fires := (f.errorCount > 10 && t == Errors) || (f.warningCount > 20 && t == Warnings) ||
      (f.stackTraces > 0 && t == StackTraces) || (f.slowRequests > 5 && t == SlowRequests) ||
      (f.securityEvents > 0 && t == SecurityEvents);
    assert HasTopic(CountRecommendations(f), t) <==> fires;
  }

  /** The keyword checks recommend on `t` exactly when `t` is one of theirs and fires. */
  lemma KeywordRecommendationTopic(f: LogFindings, t: Topic)
    ensures HasTopic(KeywordRecommendations(f), t) <==> IsKeywordTopic(t) && Fires(f, t)
  {
    var r6 := Recommendation("medium", Timeouts, None);
    var r7 := Recommendation("medium", Retries, None);
    var r8 := Recommendation("medium", MemoryUse, None);
    var a6 := When(CountAt(f.keywordStats, "timeout") > 5, r6);
    var a7 := a6 + When(CountAt(f.keywordStats, "retry") > 5, r7);
    HasTopicWhen(CountAt(f.keywordStats, "timeout") > 5, r6, t);
    HasTopicSnoc(a6, CountAt(f.keywordStats, "retry") > 5, r7, t);
    HasTopicSnoc(a7, CountAt(f.keywordStats, "memory") > 10, r8, t);
  }

  /** A recommendation on `t` is present exactly when its check fires. */
  lemma RecommendationTopic(f: LogFindings, t: Topic)
    ensures HasTopic(GenerateLogRecommendations(f), t) <==> Fires(f, t)
  {
    HasTopicAppend(CountRecommendations(f), KeywordRecommendations(f), t);
    CountRecommendationTopic(f, t);
    KeywordRecommendationTopic(f, t);
  }

  /** Every recommendation is `high` when it is about errors, stack traces or security
      events and `medium` otherwise, and there are at most eight. */
  lemma RecommendationsRated(f: LogFindings)
    ensures Rated(GenerateLogRecommendations(f))
    ensures |GenerateLogRecommendations(f)| <= 8
  {
    var c := CountRecommendations(f);
    var k := KeywordRecommendations(f);
    CountRecommendationsRated(f);
    KeywordRecommendationsRated(f);
    RatedAppend(c, k);
  }

  lemma CountRecommendationsRated(f: LogFindings)
    ensures Rated(CountRecommendations(f)) && |CountRecommendations(f)| <= 5
  {
    var a1 := When(f.errorCount > 10, Recommendation("high", Errors, Some(f.errorCount)));
    var a2 := When(f.warningCount > 20, Recommendation("medium", Warnings, Some(f.warningCount)));
    var a3 := When(f.stackTraces > 0, Recommendation("high", StackTraces, Some(f.stackTraces)));
    var a4 := When(f.slowRequests > 5, Recommendation("medium", SlowRequests, Some(f.slowRequests)));
    var a5 := When(f.securityEvents > 0, Recommendation("high", SecurityEvents, Some(f.securityEvents)));
    RatedAppend(a1, a2);
    RatedAppend(a1 + a2, a3);
    RatedAppend(a1 + a2 + a3, a4);
    RatedAppend(a1 + a2 + a3 + a4, a5);
  }

  lemma KeywordRecommendationsRated(f: LogFindings)
    ensures Rated(KeywordRecommendations(f)) && |KeywordRecommendations(f)| <= 3
  {
    var a6 := When(CountAt(f.keywordStats, "timeout") > 5, Recommendation("medium", Timeouts, None));
    var a7 := When(CountAt(f.keywordStats, "retry") > 5, Recommendation("medium", Retries, None));
    var a8 := When(CountAt(f.keywordStats, "memory") > 10, Recommendation("medium", MemoryUse, None));
    RatedAppend(a6, a7);
    RatedAppend(a6 + a7, a8);
  }

  lemma RatedAppend(a: seq<Recommendation>, b: seq<Recommendation>)
    requires Rated(a) && Rated(b)
    ensures Rated(a + b)
  {
    assert forall i :: |a| <= i < |a + b| ==> (a + b)[i] == b[i - |a|];
  }

  /** A recommendation on errors appears exactly when there are more than 10 errors, on
      warnings when more than 20, on stack traces and security events when there is
      any, on slow requests when more than 5, on timeouts and retries when more than 5
      lines mention them, and on memory when more than 10 do. */
  lemma RecommendationLaws(f: LogFindings)
    ensures HasTopic(GenerateLogRecommendations(f), Errors) <==> f.errorCount > 10
    ensures HasTopic(GenerateLogRecommendations(f), Warnings) <==> f.warningCount > 20
    ensures HasTopic(GenerateLogRecommendations(f), StackTraces) <==> f.stackTraces > 0
    ensures HasTopic(GenerateLogRecommendations(f), SlowRequests) <==> f.slowRequests > 5
    ensures HasTopic(GenerateLogRecommendations(f), SecurityEvents) <==> f.securityEvents > 0
    ensures HasTopic(GenerateLogRecommendations(f), Timeouts) <==> CountAt(f.keywordStats, "timeout") > 5
    ensures HasTopic(GenerateLogRecommendations(f), Retries) <==> CountAt(f.keywordStats, "retry") > 5
    ensures HasTopic(GenerateLogRecommendations(f), MemoryUse) <==> CountAt(f.keywordStats, "memory") > 10
  {
    RecommendationTopic(f, Errors);
    RecommendationTopic(f, Warnings);
    RecommendationTopic(f, StackTraces);
    RecommendationTopic(f, SlowRequests);
    RecommendationTopic(f, SecurityEvents);
    RecommendationTopic(f, Timeouts);
    RecommendationTopic(f, Retries);
    RecommendationTopic(f, MemoryUse);
  }

  // ------------------------------------------------------------------------
  // analyzePodLogs
  // ------------------------------------------------------------------------

  datatype LogAnalysis = LogAnalysis(
    totalLines: nat,
    errorCount: nat,
    warningCount: nat,
    infoCount: nat,
    debugCount: nat,
    errors: seq<LineRef>,
    warnings: seq<LineRef>,
    stackTraces: seq<LineRef>,
    securityEvents: seq<SecurityEvent>,
    keywordStats: Dict<nat>,
    logLevels: LevelCounts,
    recommendations: seq<Recommendation>)

  /** The analysis of `logs`; `slowRequests` is the number of lines the duration
      pattern reports as slower than a second. */
  function AnalysisOf(logs: string, slowRequests: nat): LogAnalysis {
    var lines := Lines(logs);
    var levels := Tally(lines, LevelOf);
    var errors := Keep(lines, IsErrorLine);
    var warnings := Keep(lines, IsWarningLine);
    var traces := Keep(lines, IsStackTrace);
    var security := SecurityEventsOf(lines);
    var keywords := KeywordStatsOf(lines);
    LogAnalysis(
      |lines|, levels.error + levels.fatal, levels.warning, levels.info, levels.debug,
      errors, warnings, traces, security, keywords, levels,
      GenerateLogRecommendations(LogFindings(
        levels.error + levels.fatal, levels.warning, |traces|, slowRequests, |security|, keywords)))
  }

  /** `totalLines` counts the `\n`-separated pieces (so empty logs have one line);
      `errorCount` is the length of `errors` and the error plus fatal levels,
      `warningCount` the length of `warnings` and the warning level; every line has at
      most one level; the error, warning and stack-trace lists hold exactly the lines
      of their kind with their 1-based numbers. */
  lemma AnalysisLaws(logs: string, slowRequests: nat)
    ensures AnalysisOf(logs, slowRequests).totalLines == Occurrences(logs, '\n') + 1
    ensures AnalysisOf(logs, slowRequests).errorCount == |AnalysisOf(logs, slowRequests).errors|
    ensures AnalysisOf(logs, slowRequests).warningCount == |AnalysisOf(logs, slowRequests).warnings|
    ensures AnalysisOf(logs, slowRequests).errorCount ==
      AnalysisOf(logs, slowRequests).logLevels.error + AnalysisOf(logs, slowRequests).logLevels.fatal
    ensures AnalysisOf(logs, slowRequests).logLevels.Sum() + Count(Lines(logs), IsUnleveled) == |Lines(logs)|
    ensures forall i :: 0 <= i < |Lines(logs)| ==>
      (LineRef(i + 1, Lines(logs)[i]) in AnalysisOf(logs, slowRequests).errors <==> IsErrorLine(Lines(logs)[i]))
    ensures forall i :: 0 <= i < |Lines(logs)| ==>
      (LineRef(i + 1, Lines(logs)[i]) in AnalysisOf(logs, slowRequests).warnings <==> IsWarningLine(Lines(logs)[i]))
    ensures forall i :: 0 <= i < |Lines(logs)| ==>
      (LineRef(i + 1, Lines(logs)[i]) in AnalysisOf(logs, slowRequests).stackTraces <==> IsStackTrace(Lines(logs)[i]))
  {
    var lines := Lines(logs);
    ErrorWarningTally(lines);
    TallyCovers(lines, LevelOf, IsUnleveled);
    KeepLaws(lines, IsErrorLine);
    KeepLaws(lines, IsWarningLine);
    KeepLaws(lines, IsStackTrace);
  }

  /** The security events raised for one line, in keyword order. */
  method LineSecurityEvents(r: LineRef) returns (events: seq<SecurityEvent>)
    ensures events == Hits(r, SecurityKeywords)
  {
    var lower := Lower(r.content);
    events := [];
    var k := 0;
    while k < |SecurityKeywords|
      invariant 0 <= k <= |SecurityKeywords|
      invariant events == Hits(r, SecurityKeywords[..k])
    {
      var prefix := SecurityKeywords[..k + 1];
      assert prefix[..k] == SecurityKeywords[..k];
      if Includes(lower, SecurityKeywords[k]) {
        events := events + [SecurityEvent(r.line, r.content, SecurityKeywords[k])];
      }
      k := k + 1;
    }
    assert SecurityKeywords[..k] == SecurityKeywords;
  }

  /** The keyword counters after one more line. */
  method CountKeywords(stats: Dict<nat>, lower: string) returns (d: Dict<nat>)
    ensures d == BumpKeywords(stats, lower, StatKeywords)
  {
    d := stats;
    var k := 0;
    while k < |StatKeywords|
      invariant 0 <= k <= |StatKeywords|
      invariant d == BumpKeywords(stats, lower, StatKeywords[..k])
    {
      var prefix := StatKeywords[..k + 1];
      assert prefix[..k] == StatKeywords[..k];
      if Includes(lower, StatKeywords[k]) {
        d := Bump(d, StatKeywords[k]);
      }
      k := k + 1;
    }
    assert StatKeywords[..k] == StatKeywords;
  }

  /** Each fold of the analysis after one more line. */
  lemma LineStep(lines: seq<string>, i: nat)
    requires i < |lines|
    ensures Tally(lines[..i + 1], LevelOf) == Tally(lines[..i], LevelOf).Add(LevelOf(lines[i]))
    ensures Keep(lines[..i + 1], IsErrorLine) ==
      Keep(lines[..i], IsErrorLine) + (if IsErrorLine(lines[i]) then [LineRef(i + 1, lines[i])] else [])
    ensures Keep(lines[..i + 1], IsWarningLine) ==
      Keep(lines[..i], IsWarningLine) + (if IsWarningLine(lines[i]) then [LineRef(i + 1, lines[i])] else [])
    ensures Keep(lines[..i + 1], IsStackTrace) ==
      Keep(lines[..i], IsStackTrace) + (if IsStackTrace(lines[i]) then [LineRef(i + 1, lines[i])] else [])
    ensures SecurityEventsOf(lines[..i + 1]) == SecurityEventsOf(lines[..i]) + Hits(LineRef(i + 1, lines[i]), SecurityKeywords)
    ensures KeywordStatsOf(lines[..i + 1]) == BumpKeywords(KeywordStatsOf(lines[..i]), Lower(lines[i]), StatKeywords)
  {
    var prefix := lines[..i + 1];
    assert prefix[..i] == lines[..i];
    assert prefix[i] == lines[i];
  }

  /** The level cascade of `analyzePodLogs` for one line: its level counter and, for
      errors and warnings, its entry in the matching list. */
  method ClassifyLine(levels: LevelCounts, errors: seq<LineRef>, warnings: seq<LineRef>, here: LineRef)
    returns (levels': LevelCounts, errors': seq<LineRef>, warnings': seq<LineRef>)
    ensures levels' == levels.Add(LevelOf(here.content))
    ensures errors' == errors + (if IsErrorLine(here.content) then [here] else [])
    ensures warnings' == warnings + (if IsWarningLine(here.content) then [here] else [])
  {
    var lower := Lower(here.content);
    levels', errors', warnings' := levels, errors, warnings;
    if Includes(lower, "error") || Includes(lower, "err") {
      levels' := levels.(error := levels.error + 1);
      errors' := errors + [here];
    } else if Includes(lower, "fatal") {
      levels' := levels.(fatal := levels.fatal + 1);
      errors' := errors + [here];
    } else if Includes(lower, "warning") || Includes(lower, "warn") {
      levels' := levels.(warning := levels.warning + 1);
      warnings' := warnings + [here];
    } else if Includes(lower, "info") {
      levels' := levels.(info := levels.info + 1);
    } else if Includes(lower, "debug") {
      levels' := levels.(debug := levels.debug + 1);
    } else if Includes(lower, "trace") {
      levels' := levels.(trace := levels.trace + 1);
    }
  }

  /** What `analyzePodLogs` has gathered after some lines: the level counters, the
      lists and the keyword counters. */
  datatype Scan = Scan(
    levels: LevelCounts, errors: seq<LineRef>, warnings: seq<LineRef>,
    traces: seq<LineRef>, security: seq<SecurityEvent>, keywords: Dict<nat>)

  function ScanOf(lines: seq<string>): Scan {
    var levels := Tally(lines, LevelOf);
    Scan(levels, Keep(lines, IsErrorLine), Keep(lines, IsWarningLine), Keep(lines, IsStackTrace),
         SecurityEventsOf(lines), KeywordStatsOf(lines))
  }

  /** The body of the line loop of `analyzePodLogs`, for line `i`. */
  method ScanLine(acc: Scan, lines: seq<string>, i: nat) returns (acc': Scan)
    requires i < |lines| && acc == ScanOf(lines[..i])
    ensures acc' == ScanOf(lines[..i + 1])
  {
    LineStep(lines, i);
    var here := LineRef(i + 1, lines[i]);
    var levels, errors, warnings := ClassifyLine(acc.levels, acc.errors, acc.warnings, here);
    var traces := acc.traces;
    if IsStackTrace(lines[i]) {
      traces := traces + [here];
    }
    var raised := LineSecurityEvents(here);
    var keywords := CountKeywords(acc.keywords, Lower(lines[i]));
    acc' := Scan(levels, errors, warnings, traces, acc.security + raised, keywords);
  }

  // ------------------------------------------------------------------------
  // The capture groups analyzePodLogs reads but its regexes lack
  // ------------------------------------------------------------------------

  /** Length of the run of `\s` characters (`IsSpace`) at the head of `s`. */
  function SpaceRun(s: string): (n: nat)
    ensures n <= |s| && forall i :: 0 <= i < n ==> IsSpace(s[i])
    ensures n < |s| ==> !IsSpace(s[n])
    decreases |s|
  {
    if |s| > 0 && IsSpace(s[0]) then 1 + SpaceRun(s[1..]) else 0
  }

  const DbVerbs: seq<string> := ["select", "insert", "update", "delete", "create", "drop", "alter"]
  const DbObjects: seq<string> := ["from", "into", "table", "index"]
  const HttpMethods: seq<string> := ["get", "post", "put", "delete", "patch", "head", "options"]
  const UrlSchemes: seq<string> := ["http://", "https://"]

  predicate EndsWithWord(s: string, words: seq<string>) {
    exists w :: w in words && |w| <= |s| && s[|s| - |w|..] == w
  }

  /** `\s+(?:from|into|table|index)` at the head of `t`; the objects start with no
      space, so the greedy run of spaces is the only one to try. */
  predicate ObjectFollows(t: string) {
    var n := SpaceRun(t);
    n > 0 && exists o :: o in DbObjects && o <= t[n..]
  }

  /** `\s+https?:\/\/[^\s]+` at the head of `t`. */
  predicate UrlFollows(t: string) {
    var n := SpaceRun(t);
    n > 0 && exists u :: u in UrlSchemes && |u| < |t[n..]| && u <= t[n..] && !IsSpace(t[n..][|u|])
  }

  /** The database-query pattern of `analyzePodLogs` matches somewhere in the line
      (case-insensitively, so on the lower-cased line). */
  predicate DbQueryMatch(line: string) {
    var s := Lower(line);
    exists k :: 0 <= k <= |s| && EndsWithWord(s[..k], DbVerbs) && ObjectFollows(s[k..])
  }

  /** The API-call pattern of `analyzePodLogs` matches somewhere in the line. */
  predicate ApiCallMatch(line: string) {
    var s := Lower(line);
    exists k :: 0 <= k <= |s| && EndsWithWord(s[..k], HttpMethods) && UrlFollows(s[k..])
  }

  /** Both patterns are written without a capture group, so on a matching line
      `match[1]` is undefined and `.toUpperCase()` on it throws. */
  predicate Crashes(line: string) {
    DbQueryMatch(line) || ApiCallMatch(line)
  }

  /** What the `catch` of `analyzePodLogs` rethrows after that TypeError. */
  const CaptureFailure: string :=
    "Failed to analyze pod logs: Cannot read properties of undefined (reading 'toUpperCase')"

  predicate SomeLineCrashes(lines: seq<string>) {
    exists i :: 0 <= i < |lines| && Crashes(lines[i])
  }

  /** `analyzePodLogs(logs)`: the analysis, unless some line throws. */
  function PodLogsAnalysis(logs: string, slowRequests: nat): Result<LogAnalysis> {
    if SomeLineCrashes(Lines(logs)) then Fail(Invalid(CaptureFailure)) else Ok(AnalysisOf(logs, slowRequests))
  }

  lemma CrashAt(lines: seq<string>, i: nat)
    requires i < |lines| && Crashes(lines[i])
    ensures SomeLineCrashes(lines)
  {
  }

  lemma NoCrashSnoc(lines: seq<string>, i: nat)
    requires i < |lines| && !SomeLineCrashes(lines[..i]) && !Crashes(lines[i])
    ensures !SomeLineCrashes(lines[..i + 1])
  {
    var pre, ext := lines[..i], lines[..i + 1];
    forall j | 0 <= j < |ext| ensures !Crashes(ext[j]) {
      if j < i {
        assert ext[j] == pre[j];
      } else {
        assert ext[j] == lines[i];
      }
    }
  }

  lemma NoCrash(lines: seq<string>)
    requires forall j :: 0 <= j < |lines| ==> !Crashes(lines[j])
    ensures !SomeLineCrashes(lines)
  {
  }

  /** A line without any `\s` character matches neither pattern. */
  lemma SpacelessLineIsSafe(line: string)
    requires forall i :: 0 <= i < |line| ==> !IsSpace(line[i])
    ensures !Crashes(line)
  {
    var s := Lower(line);
    NoSpaceRuns(line);
    assert !DbQueryMatch(line) by {
      forall k | 0 <= k <= |s| ensures !ObjectFollows(s[k..]) {
        assert SpaceRun(s[k..]) == 0;
      }
    }
    assert !ApiCallMatch(line) by {
      forall k | 0 <= k <= |s| ensures !UrlFollows(s[k..]) {
        assert SpaceRun(s[k..]) == 0;
      }
    }
  }

  /** Without `\s` in the line, no position of the lower-cased line starts a run of spaces. */
  lemma NoSpaceRuns(line: string)
    requires forall i :: 0 <= i < |line| ==> !IsSpace(line[i])
    ensures forall k :: 0 <= k <= |Lower(line)| ==> SpaceRun(Lower(line)[k..]) == 0
  {
    var s := Lower(line);
    forall k | 0 <= k <= |s| ensures SpaceRun(s[k..]) == 0 {
      if k < |s| {
        assert s[k..][0] == LowerChar(line[k]);
      }
    }
  }

  /** The analysis fails exactly when some line matches a pattern, with the rethrown
      message; otherwise it is the line analysis, so logs whose lines hold no `\s`
      are always analysed. */
  lemma PodLogsAnalysisLaws(logs: string, slowRequests: nat)
    ensures PodLogsAnalysis(logs, slowRequests).Fail? <==>
      exists i :: 0 <= i < |Lines(logs)| && (DbQueryMatch(Lines(logs)[i]) || ApiCallMatch(Lines(logs)[i]))
    ensures PodLogsAnalysis(logs, slowRequests).Fail? <==> SomeLineCrashes(Lines(logs))
    ensures PodLogsAnalysis(logs, slowRequests).Fail? ==> PodLogsAnalysis(logs, slowRequests).error == Invalid(CaptureFailure)
    ensures PodLogsAnalysis(logs, slowRequests).Ok? ==> PodLogsAnalysis(logs, slowRequests).value == AnalysisOf(logs, slowRequests)
    ensures (forall i, j :: 0 <= i < |Lines(logs)| && 0 <= j < |Lines(logs)[i]| ==> !IsSpace(Lines(logs)[i][j])) ==>
      PodLogsAnalysis(logs, slowRequests) == Ok(AnalysisOf(logs, slowRequests))
  {
    if forall i, j :: 0 <= i < |Lines(logs)| && 0 <= j < |Lines(logs)[i]| ==> !IsSpace(Lines(logs)[i][j]) {
      forall i | 0 <= i < |Lines(logs)| ensures !Crashes(Lines(logs)[i]) {
        SpacelessLineIsSafe(Lines(logs)[i]);
      }
      NoCrash(Lines(logs));
    }
  }

  /** A text without a newline is one line. */
  lemma {:induction false} OneLine(logs: string)
    requires '\n' !in logs
    ensures Lines(logs) == [logs]
  {
    NoOccurrences(logs, '\n');
    SplitLaws(logs, '\n');
  }

  lemma {:induction false} NoOccurrences(s: string, c: char)
    requires c !in s
    ensures Occurrences(s, c) == 0
    decreases |s|
  {
    if |s| > 0 {
      assert c !in s[1..];
      NoOccurrences(s[1..], c);
    }
  }

  /** The database-query pattern matches a line holding verb `w` ending at `k`,
      one space, then object `o`. */
  lemma DbQueryAt(line: string, k: nat, w: string, o: string)
    requires w in DbVerbs && o in DbObjects && |w| <= k < |line|
    requires Lower(line)[k - |w|..k] == w && Lower(line)[k] == ' '
    requires |o| > 0 && !IsSpace(o[0]) && o <= Lower(line)[k + 1..]
    ensures DbQueryMatch(line)
  {
    var s := Lower(line);
    var t := s[k..];
    assert t[1..] == s[k + 1..];
    assert t[1..][0] == o[0];
    assert SpaceRun(t) == 1;
    assert s[..k][k - |w|..] == w;
    assert EndsWithWord(s[..k], DbVerbs);
    assert ObjectFollows(t);
  }

  /** The API-call pattern matches a line holding method `w` ending at `k`, one
      space, then scheme `u` and a non-space character. */
  lemma ApiCallAt(line: string, k: nat, w: string, u: string)
    requires w in HttpMethods && u in UrlSchemes && |w| <= k && k + 1 + |u| < |line|
    requires Lower(line)[k - |w|..k] == w && Lower(line)[k] == ' '
    requires u <= Lower(line)[k + 1..] && !IsSpace(Lower(line)[k + 1 + |u|])
    ensures ApiCallMatch(line)
  {
    var s := Lower(line);
    var t := s[k..];
    assert t[1..] == s[k + 1..];
    assert t[1..][0] == u[0] == 'h';
    assert SpaceRun(t) == 1;
    assert t[1..][|u|] == s[k + 1 + |u|];
    assert s[..k][k - |w|..] == w;
    assert EndsWithWord(s[..k], HttpMethods);
    assert UrlFollows(t);
  }

  lemma CrashingLogFails(logs: string, slowRequests: nat)
    requires |Lines(logs)| > 0 && Crashes(Lines(logs)[0])
    ensures PodLogsAnalysis(logs, slowRequests) == Fail(Invalid(CaptureFailure))
  {
    CrashAt(Lines(logs), 0);
  }

  /** A log line holding an SQL statement (`INSERT INTO <table>`) makes the analysis fail. */
  lemma InsertIntoFails(logs: string, table: string, slowRequests: nat)
    requires logs == "INSERT INTO " + table && '\n' !in table
    ensures PodLogsAnalysis(logs, slowRequests) == Fail(Invalid(CaptureFailure))
  {
    NoNewlineAfter("INSERT INTO ", table);
    OneLine(logs);
    InsertIntoLine(table);
    CrashingLogFails(logs, slowRequests);
  }

  /** A prefix without a line break keeps a line free of them. */
  lemma NoNewlineAfter(pre: string, rest: string)
    requires '\n' !in pre && '\n' !in rest
    ensures '\n' !in pre + rest
  {
    assert forall i :: 0 <= i < |rest| ==> (pre + rest)[|pre| + i] == rest[i];
  }

  lemma InsertIntoLine(table: string)
    ensures DbQueryMatch("INSERT INTO " + table)
  {
    var line := "INSERT INTO " + table;
    var pre := "insert into ";
    LowerConcat("INSERT INTO ", table);
    assert Lower("INSERT INTO ") == pre by {
      assert forall i :: 0 <= i < |pre| ==> LowerChar("INSERT INTO "[i]) == pre[i];
    }
    InsertIntoSlices(Lower(table));
    DbQueryAt(line, 6, "insert", "into");
  }

  lemma InsertIntoSlices(x: string)
    ensures var s := "insert into " + x;
      s[0..6] == "insert" && s[6] == ' ' && "into" <= s[7..]
  {
    var s := "insert into " + x;
    assert s[7..11] == "into";
  }

  /** So does a log line recording an HTTP call (`GET https://<host>`). */
  lemma ApiCallFails(logs: string, host: string, slowRequests: nat)
    requires logs == "GET https://" + host && '\n' !in host && |host| > 0 && !IsSpace(host[0])
    ensures PodLogsAnalysis(logs, slowRequests) == Fail(Invalid(CaptureFailure))
  {
    NoNewlineAfter("GET https://", host);
    OneLine(logs);
    ApiCallLine(host);
    CrashingLogFails(logs, slowRequests);
  }

  lemma ApiCallLine(host: string)
    requires |host| > 0 && !IsSpace(host[0])
    ensures ApiCallMatch("GET https://" + host)
  {
    var line := "GET https://" + host;
    var pre := "get https://";
    LowerConcat("GET https://", host);
    assert Lower("GET https://") == pre by {
      assert forall i :: 0 <= i < |pre| ==> LowerChar("GET https://"[i]) == pre[i];
    }
    ApiCallSlices(Lower(host));
    assert Lower(host)[0] == LowerChar(host[0]);
    ApiCallAt(line, 3, "get", "https://");
  }

  lemma ApiCallSlices(x: string)
    requires |x| > 0
    ensures var s := "get https://" + x;
      s[0..3] == "get" && s[3] == ' ' && "https://" <= s[4..] && s[12] == x[0]
  {
    var s := "get https://" + x;
    assert s[4..12] == "https://";
  }

  /** The `forEach` over the lines of `analyzePodLogs`: it stops at the first line
      matching a pattern without a capture group, and otherwise scans every line. */
  method ScanLines(lines: seq<string>) returns (acc: Scan, crashed: bool)
    ensures crashed <==> SomeLineCrashes(lines)
    ensures !crashed ==> acc == ScanOf(lines)
  {
    acc := Scan(NoCounts, [], [], [], [], []);
    var i := 0;
    while i < |lines|
      invariant 0 <= i <= |lines|
      invariant acc == ScanOf(lines[..i])
      invariant !SomeLineCrashes(lines[..i])
    {
      acc := ScanLine(acc, lines, i);
      if Crashes(lines[i]) {
        CrashAt(lines, i);
        return acc, true;
      }
      NoCrashSnoc(lines, i);
      i := i + 1;
    }
    assert lines[..i] == lines;
    crashed := false;
  }

  /** `analyzePodLogs(logs)`: the line loop, then the counts and recommendations. */
  method AnalyzePodLogs(logs: string, slowRequests: nat) returns (r: Result<LogAnalysis>)
    ensures r == PodLogsAnalysis(logs, slowRequests)
  {
    var lines := Split(logs, '\n');
    assert lines == Lines(logs);
    var acc, crashed := ScanLines(lines);
    if crashed {
      return Fail(Invalid(CaptureFailure));
    }
    var levels := acc.levels;
    var errorCount := levels.error + levels.fatal;
    var recommendations := GenerateLogRecommendations(
      LogFindings(errorCount, levels.warning, |acc.traces|, slowRequests, |acc.security|, acc.keywords));
    var a := LogAnalysis(|lines|, errorCount, levels.warning, levels.info, levels.debug, acc.errors, acc.warnings,
                         acc.traces, acc.security, acc.keywords, levels, recommendations);
    assert a == AnalysisOf(logs, slowRequests);
    r := Ok(a);
  }

  // ------------------------------------------------------------------------
  // searchLogs
  // ------------------------------------------------------------------------

  datatype SearchResult = SearchResult(searchTerm: string, totalMatches: nat, matches: seq<LineRef>)

  /** The plain-text match of `searchLogs`: `line.includes(term)`, or both lower-cased. */
  predicate SearchHit(line: string, term: string, caseSensitive: bool) {
    if caseSensitive then Includes(line, term) else Includes(Lower(line), Lower(term))
  }

  function SearchPredicate(term: string, caseSensitive: bool): string -> bool {
    (line: string) => SearchHit(line, term, caseSensitive)
  }

  function SearchOf(logs: string, term: string, caseSensitive: bool): SearchResult {
    var matches := Keep(Lines(logs), SearchPredicate(term, caseSensitive));
    SearchResult(term, |matches|, matches)
  }

  /** `searchLogs(logs, searchTerm, { caseSensitive, regex: false })` */
  method SearchLogs(logs: string, term: string, caseSensitive: bool) returns (r: SearchResult)
    ensures r == SearchOf(logs, term, caseSensitive)
  {
    var lines := Split(logs, '\n');
    var results: seq<LineRef> := [];
    var i := 0;
    while i < |lines|
      invariant 0 <= i <= |lines|
      invariant results == Keep(lines[..i], SearchPredicate(term, caseSensitive))
    {
      var prefix := lines[..i + 1];
      assert prefix[..i] == lines[..i];
      var line := lines[i];
      var hit := if caseSensitive then Includes(line, term) else Includes(Lower(line), Lower(term));
      if hit {
        results := results + [LineRef(i + 1, line)];
      }
      i := i + 1;
    }
    assert lines[..i] == lines;
    r := SearchResult(term, |results|, results);
  }

  /** The matches are exactly the lines containing the term, numbered from 1 and in
      order, and `totalMatches` counts them; the empty term matches every line. */
  lemma SearchLaws(logs: string, term: string, caseSensitive: bool)
    ensures SearchOf(logs, term, caseSensitive).totalMatches == |SearchOf(logs, term, caseSensitive).matches|
    ensures forall k :: 0 <= k < |SearchOf(logs, term, caseSensitive).matches| ==>
      var m := SearchOf(logs, term, caseSensitive).matches[k];
      1 <= m.line <= |Lines(logs)| && Lines(logs)[m.line - 1] == m.content && SearchHit(m.content, term, caseSensitive)
    ensures forall i :: 0 <= i < |Lines(logs)| && SearchHit(Lines(logs)[i], term, caseSensitive) ==>
      LineRef(i + 1, Lines(logs)[i]) in SearchOf(logs, term, caseSensitive).matches
    ensures forall a, b :: 0 <= a < b < |SearchOf(logs, term, caseSensitive).matches| ==>
      SearchOf(logs, term, caseSensitive).matches[a].line < SearchOf(logs, term, caseSensitive).matches[b].line
    ensures term == "" ==> SearchOf(logs, term, caseSensitive).totalMatches == |Lines(logs)|
  {
    KeepLaws(Lines(logs), SearchPredicate(term, caseSensitive));
    if term == "" {
      EmptyTermMatchesAll(Lines(logs), caseSensitive);
    }
  }

  lemma EmptyTermMatchesAll(lines: seq<string>, caseSensitive: bool)
    ensures Count(lines, SearchPredicate("", caseSensitive)) == |lines|
  {
    var p := SearchPredicate("", caseSensitive);
    assert Lower("") == "";
    forall i | 0 <= i < |lines| ensures p(lines[i]) {
      IncludesEmpty(lines[i]);
      IncludesEmpty(Lower(lines[i]));
    }
    CountAll(lines, p);
  }

  /** Lower-casing keeps an occurrence where it was. */
  lemma IncludesLower(s: string, sub: string)
    requires Includes(s, sub)
    ensures Includes(Lower(s), Lower(sub))
  {
    IncludesAt(s, sub);
    var i :| OccursAt(s, sub, i);
    assert Lower(s)[i..i + |sub|] == Lower(sub);
    assert OccursAt(Lower(s), Lower(sub), i);
    IncludesAt(Lower(s), Lower(sub));
  }

  /** Every case-sensitive match is also a case-insensitive one. */
  lemma CaseInsensitiveFindsMore(logs: string, term: string)
    ensures forall m :: m in SearchOf(logs, term, true).matches ==> m in SearchOf(logs, term, false).matches
  {
    var lines := Lines(logs);
    var exact := Keep(lines, SearchPredicate(term, true));
    var loose := Keep(lines, SearchPredicate(term, false));
    KeepLaws(lines, SearchPredicate(term, true));
    KeepLaws(lines, SearchPredicate(term, false));
    forall k | 0 <= k < |exact|
      ensures exact[k] in loose
    {
      var m := exact[k];
      assert SearchHit(m.content, term, true);
      IncludesLower(m.content, term);
      assert SearchPredicate(term, false)(lines[m.line - 1]);
      assert m == LineRef(m.line - 1 + 1, lines[m.line - 1]);
    }
  }

  // ------------------------------------------------------------------------
  // filterLogs
  // ------------------------------------------------------------------------

  /** `filters`; the time bounds are destructured but never used. */
  datatype LogFilters = LogFilters(startTime: Option<string>, endTime: Option<string>, level: Option<string>, keyword: Option<string>)

  datatype FilterResult = FilterResult(filters: LogFilters, totalMatches: nat, matches: seq<LineRef>)

  /** The keyword test: no keyword (or an empty one) passes everything. */
  predicate KeywordPass(line: string, keyword: Option<string>) {
    keyword.None? || keyword.value == "" || Includes(Lower(line), Lower(keyword.value))
  }

  /** The level test: `error` wants `error` or `fatal`, `warning` wants `warning` or
      `warn`, `info` and `debug` want themselves, and any other level passes everything. */
  predicate LevelPass(line: string, level: Option<string>) {
    if level.None? || level.value == "" then true
    else
      var l := Lower(line);
      var lv := Lower(level.value);
      if lv == "error" then Includes(l, "error") || Includes(l, "fatal")
      else if lv == "warning" then Includes(l, "warning") || Includes(l, "warn")
      else if lv == "info" then Includes(l, "info")
      else if lv == "debug" then Includes(l, "debug")
      else true
  }

  function FilterPredicate(f: LogFilters): string -> bool {
    (line: string) => KeywordPass(line, f.keyword) && LevelPass(line, f.level)
  }

  function FilterOf(logs: string, f: LogFilters): FilterResult {
    var matches := Keep(Lines(logs), FilterPredicate(f));
    FilterResult(f, |matches|, matches)
  }

  /** `filterLogs(logs, filters)` */
  method FilterLogs(logs: string, f: LogFilters) returns (r: FilterResult)
    ensures r == FilterOf(logs, f)
  {
    var lines := Split(logs, '\n');
    var results: seq<LineRef> := [];
    var i := 0;
    while i < |lines|
      invariant 0 <= i <= |lines|
      invariant results == Keep(lines[..i], FilterPredicate(f))
    {
      var prefix := lines[..i + 1];
      assert prefix[..i] == lines[..i];
      var line := lines[i];
      var keep := LinePasses(line, f);
      if keep {
        results := results + [LineRef(i + 1, line)];
      }
      i := i + 1;
    }
    assert lines[..i] == lines;
    r := FilterResult(f, |results|, results);
  }

  /** The keyword and level tests of `filterLogs` for one line. */
  method LinePasses(line: string, f: LogFilters) returns (keep: bool)
    ensures keep == FilterPredicate(f)(line)
  {
    keep := true;
    if f.keyword.Some? && f.keyword.value != "" && !Includes(Lower(line), Lower(f.keyword.value)) {
      keep := false;
    }
    if f.level.Some? && f.level.value != "" {
      var lowerLine := Lower(line);
      var lv := Lower(f.level.value);
      if lv == "error" {
        if !Includes(lowerLine, "error") && !Includes(lowerLine, "fatal") { keep := false; }
      } else if lv == "warning" {
        if !Includes(lowerLine, "warning") && !Includes(lowerLine, "warn") { keep := false; }
      } else if lv == "info" {
        if !Includes(lowerLine, "info") { keep := false; }
      } else if lv == "debug" {
        if !Includes(lowerLine, "debug") { keep := false; }
      }
    }
  }

  /** A line is kept exactly when it passes both the keyword and the level test; the
      count is the number of kept lines; an unrecognised level and the time bounds change
      nothing. */
  lemma FilterLaws(logs: string, f: LogFilters)
    ensures FilterOf(logs, f).totalMatches == |FilterOf(logs, f).matches|
    ensures forall i :: 0 <= i < |Lines(logs)| ==>
      (LineRef(i + 1, Lines(logs)[i]) in FilterOf(logs, f).matches <==>
       KeywordPass(Lines(logs)[i], f.keyword) && LevelPass(Lines(logs)[i], f.level))
    ensures f.level.Some? && Lower(f.level.value) !in ["error", "warning", "info", "debug"] ==>
      FilterOf(logs, f).matches == FilterOf(logs, f.(level := None)).matches
    ensures FilterOf(logs, f).matches == FilterOf(logs, f.(startTime := None, endTime := None)).matches
  {
    var lines := Lines(logs);
    KeepLaws(lines, FilterPredicate(f));
    forall i | 0 <= i < |lines| && LineRef(i + 1, lines[i]) in FilterOf(logs, f).matches
      ensures KeywordPass(lines[i], f.keyword) && LevelPass(lines[i], f.level)
    {
      var k :| 0 <= k < |FilterOf(logs, f).matches| && FilterOf(logs, f).matches[k] == LineRef(i + 1, lines[i]);
    }
    if f.level.Some? && Lower(f.level.value) !in ["error", "warning", "info", "debug"] {
      KeepExt(lines, FilterPredicate(f), FilterPredicate(f.(level := None)));
    }
    KeepExt(lines, FilterPredicate(f), FilterPredicate(f.(startTime := None, endTime := None)));
  }

  // ------------------------------------------------------------------------
  // getLogStats
  // ------------------------------------------------------------------------

  /** The characters `trim()` removes, which are also those `\s` matches in a regular
      expression: JavaScript's white space and line terminators. */
  predicate IsSpace(c: char) {
    c == '\t' || c == '\n' || c == '\U{000B}' || c == '\U{000C}' || c == '\r' || c == ' ' ||
    c == '\U{00A0}' || c == '\U{1680}' || ('\U{2000}' <= c <= '\U{200A}') || c == '\U{2028}' ||
    c == '\U{2029}' || c == '\U{202F}' || c == '\U{205F}' || c == '\U{3000}' || c == '\U{FEFF}'
  }

  /** `line.trim() === ''` */
  predicate IsBlank(line: string) {
    forall i :: 0 <= i < |line| ==> IsSpace(line[i])
  }

  predicate NonBlank(line: string) { !IsBlank(line) }

  /** The cascade of `getLogStats`, which unlike that of `analyzePodLogs` tests `error`
      and not `err`, and which blank lines skip. */
  function StatsLevelOf(line: string): Level {
    if IsBlank(line) then Unleveled
    else
      var l := Lower(line);
      if Includes(l, "error") then Error
      else if Includes(l, "fatal") then Fatal
      else if Includes(l, "warning") || Includes(l, "warn") then Warning
      else if Includes(l, "info") then Info
      else if Includes(l, "debug") then Debug
      else if Includes(l, "trace") then Trace
      else Unleveled
  }

  predicate StatsUnleveled(line: string) { StatsLevelOf(line) == Unleveled }

  /** The two cascades agree on every non-blank line except those containing `err` but
      not `error`, which only `analyzePodLogs` calls errors. */
  lemma CascadesAgree(line: string)
    requires NonBlank(line)
    ensures StatsLevelOf(line) == LevelOf(line) || (Includes(Lower(line), "err") && !Includes(Lower(line), "error"))
    ensures StatsLevelOf(line) == Error ==> LevelOf(line) == Error
  {
  }

  /** `stderr` is such a line. */
  lemma CascadesDisagreeOnStderr()
    ensures LevelOf("stderr") == Error && StatsLevelOf("stderr") != Error
  {
    StderrLower();
    StderrHasErr();
    StderrLacksError();
    StderrNotBlank();
    ErrWithoutError("stderr");
  }

  /** A non-blank line mentioning `err` but not `error` is an error line for one
      cascade and not for the other. */
  lemma ErrWithoutError(line: string)
    requires !IsBlank(line) && Includes(Lower(line), "err") && !Includes(Lower(line), "error")
    ensures LevelOf(line) == Error && StatsLevelOf(line) != Error
  {
  }

  lemma StderrNotBlank()
    ensures !IsBlank("stderr")
  {
    assert !IsSpace("stderr"[0]);
  }

  lemma StderrLower()
    ensures Lower("stderr") == "stderr"
  {
    var s := "stderr";
    assert forall i :: 0 <= i < |s| ==> LowerChar(s[i]) == s[i];
  }

  lemma StderrHasErr()
    ensures Includes("stderr", "err")
  {
    IncludesInfix("std", "err", "");
    assert "std" + "err" + "" == "stderr";
  }

  lemma StderrLacksError()
    ensures !Includes("stderr", "error")
  {
    var s := "stderr";
    forall i ensures !OccursAt(s, "error", i) {
      if 0 <= i && i + 5 <= |s| {
        assert s[i..i + 5] == "stder" || s[i..i + 5] == "tderr";
      }
    }
    IncludesAt(s, "error");
  }

  /** The length a line adds to the total: its own when non-blank. */
  function CountedLength(line: string): nat { if IsBlank(line) then 0 else |line| }

  /** The longest non-blank line, 0 when there is none. */
  function MaxLength(lines: seq<string>): nat
    decreases |lines|
  {
    if |lines| == 0 then 0
    else
      var m := MaxLength(lines[..|lines| - 1]);
      var line := lines[|lines| - 1];
      if IsBlank(line) then m else Max(m, |line|)
  }

  /** The shortest non-blank line, None (JavaScript's `Infinity`) when there is none. */
  function MinLength(lines: seq<string>): Option<nat>
    decreases |lines|
  {
    if |lines| == 0 then None
    else
      var m := MinLength(lines[..|lines| - 1]);
      var line := lines[|lines| - 1];
      if IsBlank(line) then m
      else if m.None? then Some(|line|)
      else Some(Min(m.value, |line|))
  }

  /** The distinct non-blank lines. */
  function UniqueOf(lines: seq<string>): set<string>
    decreases |lines|
  {
    if |lines| == 0 then {}
    else
      var line := lines[|lines| - 1];
      UniqueOf(lines[..|lines| - 1]) + (if IsBlank(line) then {} else {line})
  }

  datatype LogStats = LogStats(
    totalLines: nat,
    emptyLines: nat,
    nonEmptyLines: nat,
    averageLineLength: real,
    maxLineLength: nat,
    minLineLength: nat,
    uniqueLines: nat,
    logLevels: LevelCounts)

  function StatsOf(logs: string): LogStats {
    var lines := Lines(logs);
    var n := Count(lines, NonBlank);
    LogStats(
      |lines|, Count(lines, IsBlank), n,
      if n > 0 then SumNat(lines, CountedLength) as real / n as real else 0.0,
      MaxLength(lines), MinLength(lines).GetOr(0), |UniqueOf(lines)|,
      Tally(lines, StatsLevelOf))
  }

  /** The extremes exist exactly when there is a non-blank line; without one the
      longest length and the total are 0. */
  lemma {:induction false} ExtremesExist(lines: seq<string>)
    ensures MinLength(lines).Some? <==> Count(lines, NonBlank) > 0
    ensures MinLength(lines).None? ==> MaxLength(lines) == 0 && SumNat(lines, CountedLength) == 0
    ensures MinLength(lines).Some? ==> 1 <= MinLength(lines).value <= MaxLength(lines)
    decreases |lines|
  {
    if |lines| > 0 {
      ExtremesExist(lines[..|lines| - 1]);
      var line := lines[|lines| - 1];
      if !IsBlank(line) {
      }
    }
  }

  /** With `n` non-blank lines, the shortest length times `n` is at most the total
      length. */
  lemma {:induction false} LengthAboveMin(lines: seq<string>)
    requires MinLength(lines).Some?
    ensures MinLength(lines).value * Count(lines, NonBlank) <= SumNat(lines, CountedLength)
    decreases |lines|
  {
    var front := lines[..|lines| - 1];
    var line := lines[|lines| - 1];
    ExtremesExist(front);
    var c := Count(front, NonBlank);
    var total := SumNat(front, CountedLength);
    var mn := MinLength(lines).value;
    assert SumNat(lines, CountedLength) == total + CountedLength(line);
    if IsBlank(line) {
      assert Count(lines, NonBlank) == c && MinLength(lines) == MinLength(front);
      LengthAboveMin(front);
    } else if MinLength(front).None? {
      assert c == 0 && total == 0;
      assert Count(lines, NonBlank) == 1 && mn == |line|;
    } else {
      assert Count(lines, NonBlank) == c + 1 && mn == Min(MinLength(front).value, |line|);
      LengthAboveMin(front);
      MinStep(total, MinLength(front).value, mn, c, |line|);
    }
  }

  /** The arithmetic step of `LengthAboveMin` for a non-blank last line. */
  lemma MinStep(total: nat, m: nat, mn: nat, c: nat, len: nat)
    requires m * c <= total && mn <= m && mn <= len
    ensures mn * (c + 1) <= total + len
  {
    MulMono(mn, m, c);
  }

  /** With `n` non-blank lines, the total length is at most the longest length times `n`. */
  lemma {:induction false} LengthBelowMax(lines: seq<string>)
    ensures SumNat(lines, CountedLength) <= MaxLength(lines) * Count(lines, NonBlank)
    decreases |lines|
  {
    if |lines| > 0 {
      var front := lines[..|lines| - 1];
      var line := lines[|lines| - 1];
      var c := Count(front, NonBlank);
      var total := SumNat(front, CountedLength);
      var mx := MaxLength(lines);
      LengthBelowMax(front);
      assert SumNat(lines, CountedLength) == total + CountedLength(line);
      if !IsBlank(line) {
        assert Count(lines, NonBlank) == c + 1;
        MaxStep(total, MaxLength(front), mx, c, |line|);
      } else {
        assert Count(lines, NonBlank) == c;
        MulMono(MaxLength(front), mx, c);
      }
    }
  }

  /** The arithmetic step of `LengthBelowMax` for a non-blank last line. */
  lemma MaxStep(total: nat, m: nat, mx: nat, c: nat, len: nat)
    requires total <= m * c && m <= mx && len <= mx
    ensures total + len <= mx * (c + 1)
  {
    MulMono(m, mx, c);
  }

  /** There are at most as many distinct non-blank lines as non-blank lines. */
  lemma {:induction false} UniqueBound(lines: seq<string>)
    ensures |UniqueOf(lines)| <= Count(lines, NonBlank)
    decreases |lines|
  {
    if |lines| > 0 { UniqueBound(lines[..|lines| - 1]); }
  }

  lemma MulMono(a: nat, b: nat, c: nat)
    requires a <= b
    ensures a * c <= b * c
  {
  }

  /** Empty and non-empty lines make up all lines; with no non-empty line the length
      statistics are all 0 (not `Infinity`); otherwise the average lies between the
      shortest and longest length; the unique and per-level counts never exceed the
      non-empty lines. */
  lemma StatsLaws(logs: string)
    ensures StatsOf(logs).emptyLines + StatsOf(logs).nonEmptyLines == StatsOf(logs).totalLines
    ensures StatsOf(logs).totalLines == Occurrences(logs, '\n') + 1
    ensures StatsOf(logs).nonEmptyLines == 0 ==>
      StatsOf(logs).minLineLength == 0 && StatsOf(logs).maxLineLength == 0 && StatsOf(logs).averageLineLength == 0.0
    ensures StatsOf(logs).nonEmptyLines > 0 ==>
      1 <= StatsOf(logs).minLineLength <= StatsOf(logs).maxLineLength &&
      StatsOf(logs).minLineLength as real <= StatsOf(logs).averageLineLength <= StatsOf(logs).maxLineLength as real
    ensures StatsOf(logs).uniqueLines <= StatsOf(logs).nonEmptyLines
    ensures StatsOf(logs).logLevels.Sum() + Count(Lines(logs), StatsUnleveled) == StatsOf(logs).totalLines
  {
    var lines := Lines(logs);
    CountSplit(lines, IsBlank, NonBlank);
    ExtremesExist(lines);
    UniqueBound(lines);
    TallyCovers(lines, StatsLevelOf, StatsUnleveled);
    var n := Count(lines, NonBlank);
    if n > 0 {
      var total := SumNat(lines, CountedLength);
      var lo := MinLength(lines).value;
      var hi := MaxLength(lines);
      LengthAboveMin(lines);
      LengthBelowMax(lines);
      RealBounds(lo, hi, total, n);
    }
  }

  /** `lo * n <= total <= hi * n` puts `total / n` between `lo` and `hi`. */
  lemma RealBounds(lo: nat, hi: nat, total: nat, n: nat)
    requires n > 0 && lo * n <= total <= hi * n
    ensures lo as real <= total as real / n as real <= hi as real
  {
    QuotientAbove(lo, total, n);
    QuotientBelow(hi, total, n);
  }

  lemma QuotientAbove(lo: nat, total: nat, n: nat)
    requires n > 0 && lo * n <= total
    ensures lo as real <= total as real / n as real
  {
    var N := n as real;
    var avg := total as real / N;
    assert avg * N == total as real;
    assert (lo * n) as real == lo as real * N;
    ScaleOrder(lo as real, avg, N);
  }

  lemma QuotientBelow(hi: nat, total: nat, n: nat)
    requires n > 0 && total <= hi * n
    ensures total as real / n as real <= hi as real
  {
    var N := n as real;
    var avg := total as real / N;
    assert avg * N == total as real;
    assert (hi * n) as real == hi as real * N;
    ScaleOrder(avg, hi as real, N);
  }

  /** What the line loop of `getLogStats` has gathered after some lines. */
  datatype StatsScan = StatsScan(
    emptyLines: nat, nonEmptyLines: nat, totalLength: nat, maxLength: nat, minLength: Option<nat>,
    unique: set<string>, levels: LevelCounts)

  function StatsScanOf(lines: seq<string>): StatsScan {
    StatsScan(Count(lines, IsBlank), Count(lines, NonBlank), SumNat(lines, CountedLength), MaxLength(lines),
              MinLength(lines), UniqueOf(lines), Tally(lines, StatsLevelOf))
  }

  /** Each fold of `getLogStats` after one more line. */
  lemma StatsStep(lines: seq<string>, i: nat)
    requires i < |lines|
    ensures var next := lines[..i + 1]; var line := lines[i];
      Count(next, IsBlank) == Count(lines[..i], IsBlank) + (if IsBlank(line) then 1 else 0) &&
      Count(next, NonBlank) == Count(lines[..i], NonBlank) + (if IsBlank(line) then 0 else 1) &&
      SumNat(next, CountedLength) == SumNat(lines[..i], CountedLength) + CountedLength(line) &&
      MaxLength(next) == (if IsBlank(line) then MaxLength(lines[..i]) else Max(MaxLength(lines[..i]), |line|)) &&
      MinLength(next) == (if IsBlank(line) then MinLength(lines[..i])
                          else if MinLength(lines[..i]).None? then Some(|line|)
                          else Some(Min(MinLength(lines[..i]).value, |line|))) &&
      UniqueOf(next) == UniqueOf(lines[..i]) + (if IsBlank(line) then {} else {line}) &&
      Tally(next, StatsLevelOf) == Tally(lines[..i], StatsLevelOf).Add(StatsLevelOf(line))
  {
    var prefix := lines[..i + 1];
    assert prefix[..i] == lines[..i];
    assert prefix[i] == lines[i];
  }

  /** The level cascade of `getLogStats` for a non-blank line. */
  method StatsClassify(levels: LevelCounts, line: string) returns (levels': LevelCounts)
    requires NonBlank(line)
    ensures levels' == levels.Add(StatsLevelOf(line))
  {
    var lower := Lower(line);
    levels' := levels;
    if Includes(lower, "error") { levels' := levels.(error := levels.error + 1); }
    else if Includes(lower, "fatal") { levels' := levels.(fatal := levels.fatal + 1); }
    else if Includes(lower, "warning") || Includes(lower, "warn") { levels' := levels.(warning := levels.warning + 1); }
    else if Includes(lower, "info") { levels' := levels.(info := levels.info + 1); }
    else if Includes(lower, "debug") { levels' := levels.(debug := levels.debug + 1); }
    else if Includes(lower, "trace") { levels' := levels.(trace := levels.trace + 1); }
  }

  /** The body of the line loop of `getLogStats`, for line `i`. */
  method StatsLine(acc: StatsScan, lines: seq<string>, i: nat) returns (acc': StatsScan)
    requires i < |lines| && acc == StatsScanOf(lines[..i])
    ensures acc' == StatsScanOf(lines[..i + 1])
  {
    StatsStep(lines, i);
    var line := lines[i];
    if IsBlank(line) {
      acc' := acc.(emptyLines := acc.emptyLines + 1);
    } else {
      var minLength := if acc.minLength.None? then Some(|line|) else Some(Min(acc.minLength.value, |line|));
      var levels := StatsClassify(acc.levels, line);
      acc' := StatsScan(acc.emptyLines, acc.nonEmptyLines + 1, acc.totalLength + |line|, Max(acc.maxLength, |line|),
                        minLength, acc.unique + {line}, levels);
    }
  }

  /** `getLogStats(logs)`: one pass over the lines, then the average and the
      `Infinity`-to-0 fix-up. */
  method GetLogStats(logs: string) returns (s: LogStats)
    ensures s == StatsOf(logs)
  {
    var lines := Split(logs, '\n');
    var acc := StatsScan(0, 0, 0, 0, None, {}, NoCounts);
    var i := 0;
    while i < |lines|
      invariant 0 <= i <= |lines|
      invariant acc == StatsScanOf(lines[..i])
    {
      acc := StatsLine(acc, lines, i);
      i := i + 1;
    }
    TakeAll(lines);
    var average := if acc.nonEmptyLines > 0 then acc.totalLength as real / acc.nonEmptyLines as real else 0.0;
    s := LogStats(|lines|, acc.emptyLines, acc.nonEmptyLines, average, acc.maxLength, acc.minLength.GetOr(0),
                  |acc.unique|, acc.levels);
  }
}
