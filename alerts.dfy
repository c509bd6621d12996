/** The alert engine: rules, field extraction from pod/node/event snapshots, condition
    evaluation, and the deduplicating trigger/acknowledge/resolve bookkeeping with its
    capped, newest-first history. */
module Alerts {
  import opened Js
  import opened Cluster

  /** `alertHistory` keeps at most this many records. */
  const HistoryCap: nat := 1000

  /** Milliseconds in the `recent24h` window. */
  const DayMillis: int := 24 * 60 * 60 * 1000

  // ------------------------------------------------------------------------
  // Rules
  // ------------------------------------------------------------------------

  /** `rule.condition`: which kind of object, which field, which operator, against what. */
  datatype Condition = Condition(kind: string, field: string, operator: string, threshold: JsVal)

  datatype Rule = Rule(id: string, name: string, description: string, enabled: bool,
                       severity: string, condition: Condition, actions: seq<string>,
                       createdAt: int, updatedAt: int)

  /** The object handed to `addAlertRule`; `None` is a missing property. */
  datatype RuleInput = RuleInput(id: Option<string>, name: string, description: Option<string>,
                                 enabled: Option<bool>, severity: Option<string>,
                                 condition: Condition, actions: Option<seq<string>>)

  /** The `updates` object of `updateAlertRule`; `None` is a property it does not set. */
  datatype RulePatch = RulePatch(id: Option<string>, name: Option<string>, description: Option<string>,
                                 enabled: Option<bool>, severity: Option<string>,
                                 condition: Option<Condition>, actions: Option<seq<string>>,
                                 createdAt: Option<int>)

  function RuleId(r: Rule): string { r.id }

  /** `addAlertRule`'s defaults; `freshId` stands for `generateRuleId()`, `now` for the clock. */
  function NewRule(input: RuleInput, freshId: string, now: int): (r: Rule)
    ensures input.id.Some? && input.id.value != "" ==> r.id == input.id.value
    ensures input.id.None? || input.id.value == "" ==> r.id == freshId
    ensures r.name == input.name && r.condition == input.condition
    ensures input.description.Some? ==> r.description == input.description.value
    ensures input.description.None? ==> r.description == ""
    ensures r.enabled <==> input.enabled != Some(false)
    ensures input.severity.Some? && input.severity.value != "" ==> r.severity == input.severity.value
    ensures input.severity.None? || input.severity.value == "" ==> r.severity == "info"
    ensures input.actions.Some? ==> r.actions == input.actions.value
    ensures input.actions.None? ==> r.actions == ["log"]
    ensures r.createdAt == r.updatedAt == now
  {
    Rule(OrDefault(input.id, freshId), input.name, OrDefault(input.description, ""),
         input.enabled != Some(false), OrDefault(input.severity, "info"), input.condition,
         input.actions.GetOr(["log"]), now, now)
  }

  /** `{...rule, ...updates, id: ruleId, updatedAt: now}` */
  function PatchRule(r: Rule, p: RulePatch, ruleId: string, now: int): Rule {
    Rule(ruleId, p.name.GetOr(r.name), p.description.GetOr(r.description), p.enabled.GetOr(r.enabled),
         p.severity.GetOr(r.severity), p.condition.GetOr(r.condition), p.actions.GetOr(r.actions),
         p.createdAt.GetOr(r.createdAt), now)
  }

  /** `updateAlertRule`: the rule list afterwards and the updated rule. */
  function RuleUpdate(rules: seq<Rule>, ruleId: string, p: RulePatch, now: int): Result<(seq<Rule>, Rule)> {
    var i := IndexOf(rules, RuleId, ruleId);
    if i < 0 then Fail(NotFound("Alert rule not found: " + ruleId))
    else
      var r := PatchRule(rules[i], p, ruleId, now);
      Ok((rules[i := r], r))
  }

  /** `deleteAlertRule`: the rule list afterwards and the removed rule. */
  function RuleRemoval(rules: seq<Rule>, ruleId: string): Result<(seq<Rule>, Rule)> {
    var i := IndexOf(rules, RuleId, ruleId);
    if i < 0 then Fail(NotFound("Alert rule not found: " + ruleId))
    else Ok((rules[..i] + rules[i + 1..], rules[i]))
  }

  /** An update fails exactly on an unknown id; otherwise it rewrites the first rule with
      that id in place, keeps the id whatever the patch says, and touches nothing else. */
  lemma UpdateRuleLaws(rules: seq<Rule>, ruleId: string, p: RulePatch, now: int)
    ensures RuleUpdate(rules, ruleId, p, now).Fail? <==> forall j :: 0 <= j < |rules| ==> rules[j].id != ruleId
    ensures RuleUpdate(rules, ruleId, p, now).Ok? ==>
      var (rules', r) := RuleUpdate(rules, ruleId, p, now).value;
      var i := IndexOf(rules, RuleId, ruleId);
      |rules'| == |rules| && rules'[i] == r && r.id == ruleId && r.updatedAt == now &&
      (p.createdAt.Some? ==> r.createdAt == p.createdAt.value) &&
      (p.createdAt.None? ==> r.createdAt == rules[i].createdAt) &&
      (p.name.Some? ==> r.name == p.name.value) && (p.name.None? ==> r.name == rules[i].name) &&
      r.description == p.description.GetOr(rules[i].description) && r.enabled == p.enabled.GetOr(rules[i].enabled) &&
      r.severity == p.severity.GetOr(rules[i].severity) && r.condition == p.condition.GetOr(rules[i].condition) &&
      r.actions == p.actions.GetOr(rules[i].actions) &&
      (forall j :: 0 <= j < |rules| && j != i ==> rules'[j] == rules[j])
  {
  }

  /** A delete fails exactly on an unknown id; otherwise exactly the first rule with that
      id leaves the list and the others keep their order. */
  lemma DeleteRuleLaws(rules: seq<Rule>, ruleId: string)
    ensures RuleRemoval(rules, ruleId).Fail? <==> forall j :: 0 <= j < |rules| ==> rules[j].id != ruleId
    ensures RuleRemoval(rules, ruleId).Ok? ==>
      var (rules', r) := RuleRemoval(rules, ruleId).value;
      var i := IndexOf(rules, RuleId, ruleId);
      r.id == ruleId && |rules'| == |rules| - 1 &&
      (forall j :: 0 <= j < i ==> rules'[j] == rules[j]) &&
      (forall j :: i <= j < |rules'| ==> rules'[j] == rules[j + 1])
  {
  }

  /** The `enabled` option of `getAlertRules` as a condition; an absent one keeps every rule. */
  function EnabledCond(enabled: Option<bool>): Rule -> bool {
    (x: Rule) => enabled.Some? ==> x.enabled == enabled.value
  }

  /** The `severity` option of `getAlertRules` as a condition; an empty one keeps every rule. */
  function SeverityCond(severity: string): Rule -> bool {
    (x: Rule) => severity != "" ==> x.severity == severity
  }

  /** Both options of `getAlertRules` as one condition. */
  function RuleFilter(enabled: Option<bool>, severity: string): Rule -> bool {
    (x: Rule) => (enabled.Some? ==> x.enabled == enabled.value) && (severity != "" ==> x.severity == severity)
  }

  /** `getAlertRules({enabled, severity})`: the two successive filters, in stored order,
      are one filter by the conjunction of the options. */
  function ListRules(rules: seq<Rule>, enabled: Option<bool>, severity: string): (r: seq<Rule>)
    ensures forall x :: x in r <==> x in rules && (enabled.Some? ==> x.enabled == enabled.value) &&
                                    (severity != "" ==> x.severity == severity)
    ensures IsSubsequence(r, rules) && |r| == Count(rules, RuleFilter(enabled, severity))
  {
    FilterFuse(rules, EnabledCond(enabled), SeverityCond(severity), RuleFilter(enabled, severity));
    FilterLaws(rules, RuleFilter(enabled, severity));
    Filter(Filter(rules, EnabledCond(enabled)), SeverityCond(severity))
  }

  // ------------------------------------------------------------------------
  // Field extraction
  // ------------------------------------------------------------------------

  /** The object passed to `evaluateAlerts`. Every rule reads it as a pod, a node or an
      event, so one record carries every property any reader looks at. */
  datatype Snapshot = Snapshot(
    containerStatuses: Option<seq<ContainerStatus>>,  // status.containerStatuses
    phase: JsVal,                                     // status.phase
    creationTimestamp: Option<int>,                   // metadata.creationTimestamp, in ms; None if unparsable
    cpu: JsVal,                                       // metrics.cpu
    memory: JsVal,                                    // metrics.memory
    conditions: Option<seq<NodeCondition>>,           // status.conditions
    eventType: JsVal,                                 // type
    reason: JsVal,                                    // reason
    message: JsVal)                                   // message

  /** `x || 0` */
  function OrZero(v: JsVal): (r: JsVal)
    ensures Truthy(v) ==> r == v
    ensures !Truthy(v) ==> r == Num(0)
  {
    if Truthy(v) then v else Num(0)
  }

  /** `getPodValue(pod, field)` at clock `now` (milliseconds). */
  function PodValue(pod: Snapshot, field: string, now: int): JsVal {
    match field
    case "restartCount" => Num(TotalRestarts(pod.containerStatuses))
    case "cpuUsage" => OrZero(pod.cpu)
    case "memoryUsage" => OrZero(pod.memory)
    case "phase" => pod.phase
    case "age" =>
      if pod.creationTimestamp.None? then NaN
      else Num((now - pod.creationTimestamp.value) / 1000)
    case _ => Null
  }

  /** `getNodeValue(node, field)` */
  function NodeValue(node: Snapshot, field: string): JsVal {
    match field
    case "ready" => Bool(ConditionTrue(node.conditions, "Ready"))
    case "diskPressure" => Bool(ConditionTrue(node.conditions, "DiskPressure"))
    case "memoryPressure" => Bool(ConditionTrue(node.conditions, "MemoryPressure"))
    case "pidPressure" => Bool(ConditionTrue(node.conditions, "PIDPressure"))
    case "networkUnavailable" => Bool(ConditionTrue(node.conditions, "NetworkUnavailable"))
    case "cpuUsage" => OrZero(node.cpu)
    case "memoryUsage" => OrZero(node.memory)
    case _ => Null
  }

  /** `getEventValue(event, field)` */
  function EventValue(event: Snapshot, field: string): JsVal {
    match field
    case "type" => event.eventType
    case "reason" => event.reason
    case "message" => event.message
    case _ => Null
  }

  const PodFields: set<string> := {"restartCount", "cpuUsage", "memoryUsage", "phase", "age"}
  const NodeFields: set<string> := {"ready", "diskPressure", "memoryPressure", "pidPressure",
                                    "networkUnavailable", "cpuUsage", "memoryUsage"}
  const EventFields: set<string> := {"type", "reason", "message"}

  /** What the pod reader promises: the restart count is the sum over containers with
      missing counts as 0, usage defaults to 0, age is whole seconds rounded down (NaN
      without a creation time), and an unknown field gives null. */
  lemma PodValueLaws(pod: Snapshot, field: string, now: int)
    ensures field == "restartCount" ==>
      PodValue(pod, field, now) == Num(if pod.containerStatuses.None? then 0 else SumRestarts(pod.containerStatuses.value))
    ensures field == "cpuUsage" ==> (Truthy(pod.cpu) ==> PodValue(pod, field, now) == pod.cpu) &&
                                    (!Truthy(pod.cpu) ==> PodValue(pod, field, now) == Num(0))
    ensures field == "memoryUsage" ==> (Truthy(pod.memory) ==> PodValue(pod, field, now) == pod.memory) &&
                                       (!Truthy(pod.memory) ==> PodValue(pod, field, now) == Num(0))
    ensures field == "age" && pod.creationTimestamp.Some? ==>
      var secs := PodValue(pod, field, now).n;
      PodValue(pod, field, now).Num? &&
      secs * 1000 <= now - pod.creationTimestamp.value < secs * 1000 + 1000
    ensures field == "age" && pod.creationTimestamp.None? ==> PodValue(pod, field, now) == NaN
    ensures field !in PodFields ==> PodValue(pod, field, now) == Null
  {
  }

  /** The node reader: each condition field is a boolean that is true only when the
      first condition of that kind exists with status `True`, so a node that reports no
      Ready condition reads as not ready; an unknown field gives null. */
  lemma NodeValueLaws(node: Snapshot, field: string)
    ensures field == "ready" ==>
      (NodeValue(node, field) == Bool(true) <==>
        node.conditions.Some? && FindCondition(node.conditions.value, "Ready").Some? &&
        FindCondition(node.conditions.value, "Ready").value.status == "True")
    ensures field == "ready" && (node.conditions.None? || FindCondition(node.conditions.value, "Ready").None?) ==>
      NodeValue(node, field) == Bool(false)
    ensures field in NodeFields - {"cpuUsage", "memoryUsage"} ==> NodeValue(node, field).Bool?
    ensures field !in NodeFields <==> NodeValue(node, field) == Null
  {
  }

  /** The event reader passes three properties through and gives null for anything else. */
  lemma EventValueLaws(event: Snapshot, field: string)
    ensures field !in EventFields ==> EventValue(event, field) == Null
    ensures field == "reason" ==> EventValue(event, field) == event.reason
  {
  }

  // ------------------------------------------------------------------------
  // Condition evaluation
  // ------------------------------------------------------------------------

  /** What `evaluateAlertRule` returns when a condition holds. */
  datatype Descriptor = Descriptor(ruleId: string, ruleName: string, severity: string, value: JsVal,
                                   threshold: JsVal, operator: string, triggeredAt: int)

  const Operators: set<string> := {">", "<", ">=", "<=", "==", "!=", "contains", "not-contains"}

  /** The field value `evaluateAlertRule` compares, or None for an unknown condition type. */
  function FieldValue(c: Condition, data: Snapshot, now: int): Option<JsVal> {
    if c.kind == "pod" then Some(PodValue(data, c.field, now))
    else if c.kind == "node" then Some(NodeValue(data, c.field))
    else if c.kind == "event" then Some(EventValue(data, c.field))
    else None
  }

  /** Whether operator `op` holds between the value and the threshold. */
  predicate Holds(op: string, v: JsVal, t: JsVal) {
    match op
    case ">" => GreaterThan(v, t)
    case "<" => LessThan(v, t)
    case ">=" => AtLeast(v, t)
    case "<=" => AtMost(v, t)
    case "==" => StrictEquals(v, t)
    case "!=" => !StrictEquals(v, t)
    case "contains" => Includes(ToStr(v), ToStr(t))
    case "not-contains" => !Includes(ToStr(v), ToStr(t))
    case _ => false
  }

  /** `evaluateAlertRule(rule, data)` at clock `now`. */
  function Evaluate(rule: Rule, data: Snapshot, now: int): Option<Descriptor> {
    if !rule.enabled then None
    else
      var c := rule.condition;
      match FieldValue(c, data, now)
      case None => None
      case Some(v) =>
        if Nullish(v) || c.operator !in Operators || !Holds(c.operator, v, c.threshold) then None
        else Some(Descriptor(rule.id, rule.name, rule.severity, v, c.threshold, c.operator, now))
  }

  /** A rule yields a descriptor exactly when it is enabled, its condition type is known,
      the field has a value, its operator is known and the comparison holds; the descriptor
      then copies the rule's id, name and severity and the compared value. */
  lemma EvaluateLaws(rule: Rule, data: Snapshot, now: int)
    ensures Evaluate(rule, data, now).Some? <==>
      rule.enabled && rule.condition.kind in {"pod", "node", "event"} &&
      var v := FieldValue(rule.condition, data, now).value;
      !Nullish(v) && rule.condition.operator in Operators && Holds(rule.condition.operator, v, rule.condition.threshold)
    ensures Evaluate(rule, data, now).Some? ==>
      var d := Evaluate(rule, data, now).value;
      d.ruleId == rule.id && d.ruleName == rule.name && d.severity == rule.severity &&
      d.value == FieldValue(rule.condition, data, now).value && d.threshold == rule.condition.threshold &&
      d.operator == rule.condition.operator && d.triggeredAt == now
  {
  }

  /** The operators on numbers are the integer comparisons; `!=` and `not-contains` are
      the negations of `==` and `contains`; NaN satisfies no ordering and equals nothing. */
  lemma OperatorLaws(v: JsVal, t: JsVal, x: int, y: int)
    ensures Holds(">", Num(x), Num(y)) <==> x > y
    ensures Holds("<", Num(x), Num(y)) <==> x < y
    ensures Holds(">=", Num(x), Num(y)) <==> x >= y
    ensures Holds("<=", Num(x), Num(y)) <==> x <= y
    ensures Holds("==", Num(x), Num(y)) <==> x == y
    ensures Holds("!=", v, t) <==> !Holds("==", v, t)
    ensures Holds("not-contains", v, t) <==> !Holds("contains", v, t)
    ensures !Holds(">", NaN, t) && !Holds("<", NaN, t) && !Holds(">=", NaN, t) && !Holds("<=", NaN, t)
    ensures !Holds("==", NaN, NaN) && Holds("!=", NaN, NaN)
  {
  }

  /** `contains` compares text: the number 5 contains the threshold "5". */
  lemma ContainsUsesText()
    ensures Holds("contains", Num(15), Str("5"))
    ensures !Holds("==", Num(5), Str("5"))
  {
    assert ToStr(Num(15)) == "15";
    assert "15"[1..2] == "5";
    assert OccursAt("15", "5", 1);
    IncludesAt("15", "5");
  }

  // ------------------------------------------------------------------------
  // Trigger, acknowledge, resolve
  // ------------------------------------------------------------------------

  /** An entry of `alertHistory`. */
  datatype AlertRecord = AlertRecord(id: string, alert: Descriptor, ruleDescription: string,
                                     actions: seq<string>, acknowledged: bool, acknowledgedAt: Option<int>,
                                     resolved: bool, resolvedAt: Option<int>, createdAt: int)

  /** A value of the `activeAlerts` map. */
  datatype ActiveAlert = ActiveAlert(alert: Descriptor, acknowledged: bool, resolved: bool)

  /** What `executeAlertAction` emits for one action of the rule. */
  datatype Notice = LogNotice(severity: string, ruleName: string) | Notify(ruleName: string)
                  | Webhook(ruleName: string) | Email(ruleName: string) | UnknownAction(action: string)

  datatype AlertState = AlertState(rules: seq<Rule>, history: seq<AlertRecord>, active: map<string, ActiveAlert>)

  /** The dedup key `${ruleId}-${value}`. */
  function AlertKey(ruleId: string, value: JsVal): string {
    ruleId + "-" + ToStr(value)
  }

  function RecordId(r: AlertRecord): string { r.id }

  /** `getAlertRule(ruleId)` */
  function FindRule(rules: seq<Rule>, ruleId: string): Option<Rule> {
    var i := IndexOf(rules, RuleId, ruleId);
    if i < 0 then None else Some(rules[i])
  }

  function ActionNotice(action: string, r: AlertRecord): Notice {
    match action
    case "log" => LogNotice(r.alert.severity, r.alert.ruleName)
    case "notify" => Notify(r.alert.ruleName)
    case "webhook" => Webhook(r.alert.ruleName)
    case "email" => Email(r.alert.ruleName)
    case _ => UnknownAction(action)
  }

  /** `rule?.actions?.forEach(action => executeAlertAction(action, record))` */
  function Dispatch(actions: seq<string>, r: AlertRecord): (ns: seq<Notice>)
    ensures |ns| == |actions|
  {
    Map(actions, a => ActionNotice(a, r))
  }

  /** The history after `unshift` and the 1000-entry truncation. */
  function PushHistory(history: seq<AlertRecord>, r: AlertRecord): seq<AlertRecord> {
    Prepend(r, history, HistoryCap)
  }

  datatype Triggered = Triggered(state: AlertState, record: Option<AlertRecord>, notices: seq<Notice>)

  /** `triggerAlert(alert)` with record id `id` at clock `now`. */
  function Trigger(s: AlertState, a: Descriptor, id: string, now: int): (t: Triggered)
    ensures t.state.rules == s.rules
    ensures s.active.Keys <= t.state.active.Keys
    ensures AlertKey(a.ruleId, a.value) in t.state.active
  {
    var key := AlertKey(a.ruleId, a.value);
    if key in s.active then Triggered(s, None, [])
    else
      var rule := FindRule(s.rules, a.ruleId);
      var r := AlertRecord(id, a, if rule.Some? then rule.value.description else "",
                           if rule.Some? then rule.value.actions else [], false, None, false, None, now);
      Triggered(AlertState(s.rules, PushHistory(s.history, r), s.active[key := ActiveAlert(a, false, false)]),
                Some(r), if rule.Some? then Dispatch(rule.value.actions, r) else [])
  }

  /** Deduplication: while `${ruleId}-${value}` is active a trigger returns nothing and
      changes nothing; otherwise it marks the key active and puts exactly one new,
      unacknowledged, unresolved record at the head of a history that stays within the cap. */
  lemma TriggerLaws(s: AlertState, a: Descriptor, id: string, now: int)
    ensures var t := Trigger(s, a, id, now);
      AlertKey(a.ruleId, a.value) in s.active <==> t.record.None?
    ensures var t := Trigger(s, a, id, now);
      t.record.None? ==> t.state == s && t.notices == []
    ensures var t := Trigger(s, a, id, now);
      t.record.Some? ==>
        var h := t.state.history;
        var r := t.record.value;
        r.id == id && r.alert == a && !r.acknowledged && !r.resolved &&
        1 <= |h| <= HistoryCap && h[0] == r && h[1..] == s.history[..|h| - 1] &&
        (|s.history| < HistoryCap ==> |h| == |s.history| + 1) &&
        t.state.active == s.active[AlertKey(a.ruleId, a.value) := ActiveAlert(a, false, false)]
  {
  }

  /** The dedup key is bare concatenation: different (rule id, value) pairs can share a key,
      and a number and its decimal text share one. */
  lemma AlertKeyCollisions()
    ensures AlertKey("disk-pressure", Str("x")) == AlertKey("disk", Str("pressure-x"))
    ensures AlertKey("pod-crash-looping", Num(6)) == AlertKey("pod-crash-looping", Str("6"))
  {
    assert ToStr(Num(6)) == "6";
  }

  datatype Updated = Updated(state: AlertState, record: Option<AlertRecord>)

  /** `acknowledgeAlert(alertId)` at clock `now`. */
  function Acknowledge(s: AlertState, alertId: string, now: int): Updated {
    var i := IndexOf(s.history, RecordId, alertId);
    if i < 0 then Updated(s, None)
    else
      var r := s.history[i].(acknowledged := true, acknowledgedAt := Some(now));
      Updated(s.(history := s.history[i := r]), Some(r))
  }

  /** `resolveAlert(alertId)` at clock `now`. */
  function Resolve(s: AlertState, alertId: string, now: int): Updated {
    var i := IndexOf(s.history, RecordId, alertId);
    if i < 0 then Updated(s, None)
    else
      var r := s.history[i].(resolved := true, resolvedAt := Some(now));
      Updated(AlertState(s.rules, s.history[i := r], s.active - {AlertKey(r.alert.ruleId, r.alert.value)}), Some(r))
  }

  /** Acknowledging touches only the first history record with the id: the active map,
      including its entry's `acknowledged: false`, stays as it was; an unknown id gives
      None and no change. */
  lemma AcknowledgeLaws(s: AlertState, alertId: string, now: int)
    ensures var u := Acknowledge(s, alertId, now);
      u.record.None? <==> forall j :: 0 <= j < |s.history| ==> s.history[j].id != alertId
    ensures var u := Acknowledge(s, alertId, now);
      u.record.None? ==> u.state == s
    ensures var u := Acknowledge(s, alertId, now);
      u.state.active == s.active && u.state.rules == s.rules && |u.state.history| == |s.history|
    ensures var u := Acknowledge(s, alertId, now);
      u.record.Some? ==>
        var i := IndexOf(s.history, RecordId, alertId);
        u.record.value.acknowledged && u.record.value.acknowledgedAt == Some(now) &&
        u.record.value.resolved == s.history[i].resolved && u.record.value.id == alertId &&
        u.state.history[i] == u.record.value &&
        forall j :: 0 <= j < |s.history| && j != i ==> u.state.history[j] == s.history[j]
  {
  }

  /** Resolving marks the first record with the id resolved and re-arms its dedup key;
      an unknown id gives None and no change. */
  lemma ResolveLaws(s: AlertState, alertId: string, now: int)
    ensures var u := Resolve(s, alertId, now);
      u.record.None? <==> forall j :: 0 <= j < |s.history| ==> s.history[j].id != alertId
    ensures var u := Resolve(s, alertId, now);
      u.record.None? ==> u.state == s
    ensures var u := Resolve(s, alertId, now);
      u.record.Some? ==>
        var i := IndexOf(s.history, RecordId, alertId);
        var r := u.record.value;
        r.resolved && r.resolvedAt == Some(now) && r.acknowledged == s.history[i].acknowledged &&
        u.state.history[i] == r && |u.state.history| == |s.history| &&
        AlertKey(r.alert.ruleId, r.alert.value) !in u.state.active &&
        (forall k :: k in s.active && k != AlertKey(r.alert.ruleId, r.alert.value) ==>
           k in u.state.active && u.state.active[k] == s.active[k]) &&
        forall j :: 0 <= j < |s.history| && j != i ==> u.state.history[j] == s.history[j]
  {
  }

  /** Resolving a fresh record re-arms its key: the same (rule, value) triggers again. */
  lemma ResolveRearms(s: AlertState, a: Descriptor, id1: string, id2: string, t1: int, t2: int, t3: int)
    requires Trigger(s, a, id1, t1).record.Some?
    ensures var s1 := Trigger(s, a, id1, t1).state;
      var s2 := Resolve(s1, id1, t2).state;
      Resolve(s1, id1, t2).record.Some? && Trigger(s2, a, id2, t3).record.Some?
  {
    var s1 := Trigger(s, a, id1, t1).state;
    TriggerLaws(s, a, id1, t1);
    assert IndexOf(s1.history, RecordId, id1) == 0;
    var s2 := Resolve(s1, id1, t2).state;
    TriggerLaws(s2, a, id2, t3);
  }

  /** Acknowledging does not re-arm: after a trigger and an acknowledge, the same
      (rule, value) still triggers nothing. */
  lemma AcknowledgeDoesNotRearm(s: AlertState, a: Descriptor, id1: string, id2: string, t1: int, t2: int, t3: int)
    requires Trigger(s, a, id1, t1).record.Some?
    ensures var s1 := Trigger(s, a, id1, t1).state;
      Trigger(Acknowledge(s1, id1, t2).state, a, id2, t3).record.None?
  {
    var s1 := Trigger(s, a, id1, t1).state;
    AcknowledgeLaws(s1, id1, t2);
    TriggerLaws(Acknowledge(s1, id1, t2).state, a, id2, t3);
  }

  /** `getActiveAlerts()`: the entries of the active map; their insertion order is not
      modelled. */
  function ActiveAlerts(s: AlertState): (r: set<ActiveAlert>)
    ensures forall k :: k in s.active ==> s.active[k] in r
    ensures forall e :: e in r ==> exists k :: k in s.active && s.active[k] == e
  {
    s.active.Values
  }

  /** No active entry is ever marked acknowledged or resolved. */
  predicate ActiveUnmarked(s: AlertState) {
    forall k :: k in s.active ==> !s.active[k].acknowledged && !s.active[k].resolved
  }

  /** Triggering, acknowledging and resolving keep every active entry unmarked, so
      `getActiveAlerts` reports `acknowledged: false` even for acknowledged alerts. */
  lemma ActiveUnmarkedPreserved(s: AlertState, a: Descriptor, id: string, alertId: string, now: int)
    requires ActiveUnmarked(s)
    ensures ActiveUnmarked(Trigger(s, a, id, now).state)
    ensures ActiveUnmarked(Acknowledge(s, alertId, now).state)
    ensures ActiveUnmarked(Resolve(s, alertId, now).state)
    ensures forall e :: e in ActiveAlerts(Acknowledge(s, alertId, now).state) ==> !e.acknowledged
  {
    TriggerLaws(s, a, id, now);
  }

  // ------------------------------------------------------------------------
  // evaluateAlerts
  // ------------------------------------------------------------------------

  datatype Pass = Pass(state: AlertState, records: seq<AlertRecord>, notices: seq<Notice>)

  /** Evaluating the rules `rs` in order against `data` and triggering each descriptor;
      `ids(k)` is the record id generated for the k-th rule. */
  function EvaluateRules(s: AlertState, rs: seq<Rule>, data: Snapshot, now: int, ids: nat -> string): (p: Pass)
    ensures p.state.rules == s.rules
    ensures s.active.Keys <= p.state.active.Keys
    decreases |rs|
  {
    if |rs| == 0 then Pass(s, [], [])
    else
      var p := EvaluateRules(s, rs[..|rs| - 1], data, now, ids);
      match Evaluate(rs[|rs| - 1], data, now)
      case None => p
      case Some(a) =>
        var t := Trigger(p.state, a, ids(|rs| - 1), now);
        Pass(t.state, p.records + (if t.record.Some? then [t.record.value] else []), p.notices + t.notices)
  }

  /** `evaluateAlerts(data)` */
  function EvaluateAll(s: AlertState, data: Snapshot, now: int, ids: nat -> string): Pass {
    EvaluateRules(s, s.rules, data, now, ids)
  }

  /** After a pass every descriptor the rules produce is active. */
  lemma {:induction false} EvaluatedKeysActive(s: AlertState, rs: seq<Rule>, data: Snapshot, now: int, ids: nat -> string)
    ensures forall j :: 0 <= j < |rs| && Evaluate(rs[j], data, now).Some? ==>
      AlertKey(Evaluate(rs[j], data, now).value.ruleId, Evaluate(rs[j], data, now).value.value)
        in EvaluateRules(s, rs, data, now, ids).state.active
    decreases |rs|
  {
    if |rs| > 0 {
      var n := |rs|;
      var front := rs[..n - 1];
      EvaluatedKeysActive(s, front, data, now, ids);
      var p := EvaluateRules(s, front, data, now, ids);
      var q := EvaluateRules(s, rs, data, now, ids);
      var e := Evaluate(rs[n - 1], data, now);
      assert p.state.active.Keys <= q.state.active.Keys && ActiveFor(q.state, rs[n - 1], data, now) by {
        if e.Some? {
          assert q.state == Trigger(p.state, e.value, ids(n - 1), now).state;
        } else {
          assert q == p;
        }
      }
      forall j | 0 <= j < n - 1 ensures ActiveFor(q.state, rs[j], data, now) {
        assert front[j] == rs[j];
        assert ActiveFor(p.state, front[j], data, now);
      }
    }
  }

  /** Every descriptor the rules `rs` produce on `data` has its key active in `s`. */
  predicate AllActive(s: AlertState, rs: seq<Rule>, data: Snapshot, now: int) {
    forall j :: 0 <= j < |rs| ==> ActiveFor(s, rs[j], data, now)
  }

  predicate ActiveFor(s: AlertState, rule: Rule, data: Snapshot, now: int) {
    Evaluate(rule, data, now).Some? ==>
      AlertKey(Evaluate(rule, data, now).value.ruleId, Evaluate(rule, data, now).value.value) in s.active
  }

  /** A pass whose every descriptor is already active triggers nothing and changes nothing. */
  lemma {:induction false} PassOverActive(s: AlertState, rs: seq<Rule>, data: Snapshot, now: int, ids: nat -> string)
    requires AllActive(s, rs, data, now)
    ensures EvaluateRules(s, rs, data, now, ids) == Pass(s, [], [])
    decreases |rs|
  {
    if |rs| > 0 {
      var n := |rs|;
      var front := rs[..n - 1];
      assert AllActive(s, front, data, now) by {
        forall j | 0 <= j < n - 1 ensures ActiveFor(s, front[j], data, now) {
          assert front[j] == rs[j];
        }
      }
      PassOverActive(s, front, data, now, ids);
      assert ActiveFor(s, rs[n - 1], data, now);
    }
  }

  /** `evaluateAlerts` run twice on the same data at the same clock: the second run
      triggers nothing and leaves the state as the first run left it. */
  lemma EvaluateTwice(s: AlertState, data: Snapshot, now: int, ids1: nat -> string, ids2: nat -> string)
    ensures var p1 := EvaluateAll(s, data, now, ids1);
      EvaluateAll(p1.state, data, now, ids2) == Pass(p1.state, [], [])
  {
    var p1 := EvaluateAll(s, data, now, ids1);
    EvaluatedKeysActive(s, s.rules, data, now, ids1);
    assert AllActive(p1.state, s.rules, data, now) by {
      forall j | 0 <= j < |s.rules| ensures ActiveFor(p1.state, s.rules[j], data, now) {
      }
    }
    PassOverActive(p1.state, s.rules, data, now, ids2);
  }

  // ------------------------------------------------------------------------
  // Queries and statistics
  // ------------------------------------------------------------------------

  predicate MatchesQuery(r: AlertRecord, severity: string, acknowledged: Option<bool>, resolved: Option<bool>) {
    (severity != "" ==> r.alert.severity == severity) &&
    (acknowledged.Some? ==> r.acknowledged == acknowledged.value) &&
    (resolved.Some? ==> r.resolved == resolved.value)
  }

  /** The options of `getAlertHistory` as one condition. */
  function HistoryFilter(severity: string, acknowledged: Option<bool>, resolved: Option<bool>): AlertRecord -> bool {
    (r: AlertRecord) => MatchesQuery(r, severity, acknowledged, resolved)
  }

  /** `getAlertHistory({severity, acknowledged, resolved, limit})`; an empty severity and a
      zero limit are absent options. The three successive filters are one filter by their
      conjunction. */
  function HistoryQuery(history: seq<AlertRecord>, severity: string, acknowledged: Option<bool>,
                        resolved: Option<bool>, limit: int): seq<AlertRecord> {
    ApplyLimit(Filter(history, HistoryFilter(severity, acknowledged, resolved)), limit)
  }

  /** The history query returns records passing every given filter, newest first as
      stored: all matches without a limit, the first `limit` of them with a positive
      limit (every match among those included), and all but the last `-limit` with a
      negative one. */
  lemma HistoryQueryLaws(history: seq<AlertRecord>, severity: string, acknowledged: Option<bool>,
                         resolved: Option<bool>, limit: int)
    ensures var q := HistoryQuery(history, severity, acknowledged, resolved, limit);
      IsSubsequence(q, history) && forall i :: 0 <= i < |q| ==> MatchesQuery(q[i], severity, acknowledged, resolved)
    ensures var m := Filter(history, HistoryFilter(severity, acknowledged, resolved));
      var q := HistoryQuery(history, severity, acknowledged, resolved, limit);
      |m| == Count(history, HistoryFilter(severity, acknowledged, resolved)) &&
      (limit == 0 ==> q == m) && (limit > 0 ==> q == m[..Min(limit, |m|)]) && (limit < 0 ==> q == m[..Max(0, |m| + limit)])
    ensures forall j :: 0 <= j < |history| && MatchesQuery(history[j], severity, acknowledged, resolved) &&
                        (limit == 0 || (0 < limit && Count(history[..j + 1], HistoryFilter(severity, acknowledged, resolved)) <= limit)) ==>
      history[j] in HistoryQuery(history, severity, acknowledged, resolved, limit)
  {
    FilterLaws(history, HistoryFilter(severity, acknowledged, resolved));
    FilterLimitLaws(history, HistoryFilter(severity, acknowledged, resolved), limit);
  }

  datatype AlertStats = AlertStats(total: nat, active: nat, bySeverity: Dict<nat>,
                                   acknowledged: nat, resolved: nat, pending: nat, recent24h: nat)

  const SeverityInit: Dict<nat> := [Entry("critical", 0), Entry("error", 0), Entry("warning", 0), Entry("info", 0)]

  function Severity(r: AlertRecord): string { r.alert.severity }

  predicate IsAcknowledged(r: AlertRecord) { r.acknowledged }
  predicate IsResolvedOnly(r: AlertRecord) { !r.acknowledged && r.resolved }
  predicate IsPending(r: AlertRecord) { !r.acknowledged && !r.resolved }

  /** Created after `time` (ms). */
  function CreatedSince(time: int): AlertRecord -> bool {
    (r: AlertRecord) => r.createdAt > time
  }

  /** `getAlertStatistics()` at clock `now`. */
  function StatsOf(s: AlertState, now: int): AlertStats {
    AlertStats(|s.history|, |s.active|, CountBy(SeverityInit, s.history, Severity),
               Count(s.history, IsAcknowledged), Count(s.history, IsResolvedOnly), Count(s.history, IsPending),
               Count(s.history, CreatedSince(now - DayMillis)))
  }

  lemma {:induction false} StatusPartition(h: seq<AlertRecord>)
    ensures Count(h, IsAcknowledged) + Count(h, IsResolvedOnly) + Count(h, IsPending) == |h|
    decreases |h|
  {
    if |h| > 0 { StatusPartition(h[..|h| - 1]); }
  }

  /** Every history record is counted under exactly one status and one severity: the
      status counts and the severity counts each sum to the total. */
  lemma StatsLaws(s: AlertState, now: int)
    ensures var st := StatsOf(s, now);
      st.acknowledged + st.resolved + st.pending == st.total
    ensures SumCounts(StatsOf(s, now).bySeverity) == StatsOf(s, now).total
    ensures forall k :: CountAt(StatsOf(s, now).bySeverity, k) == CountAt(SeverityInit, k) + CountKey(s.history, Severity, k)
  {
    StatusPartition(s.history);
    CountByLaws(SeverityInit, s.history, Severity, "");
    forall k ensures CountAt(StatsOf(s, now).bySeverity, k) == CountAt(SeverityInit, k) + CountKey(s.history, Severity, k) {
      CountByLaws(SeverityInit, s.history, Severity, k);
    }
  }

  // ------------------------------------------------------------------------
  // Export and import
  // ------------------------------------------------------------------------

  /** `exportAlertRules(format)`: the serialised payload is the rule list itself. */
  function Export(rules: seq<Rule>, format: string): Result<seq<Rule>> {
    if format == "json" || format == "yaml" then Ok(rules)
    else Fail(Invalid("Unsupported export format: " + format))
  }

  /** What `JSON.parse(data)` produced. */
  datatype Parsed = SyntaxError(message: string) | NotAnArray | RuleArray(rules: seq<Rule>)

  /** `rule.id || generateRuleId()` for the k-th imported rule. */
  function AssignIds(rs: seq<Rule>, ids: nat -> string): (r: seq<Rule>)
    ensures |r| == |rs|
    ensures forall k :: 0 <= k < |rs| ==> r[k] == (if rs[k].id == "" then rs[k].(id := ids(k)) else rs[k])
  {
    seq(|rs|, k requires 0 <= k < |rs| => if rs[k].id == "" then rs[k].(id := ids(k)) else rs[k])
  }

  datatype Imported = Imported(rules: seq<Rule>, imported: nat)

  /** `importAlertRules(data, format)`: the rule list that replaces the current one. */
  function Import(data: Parsed, format: string, ids: nat -> string): Result<Imported> {
    var prefix := "Failed to import alert rules: ";
    if format != "json" then Fail(Invalid(prefix + "Unsupported import format: " + format))
    else match data
      case SyntaxError(m) => Fail(Invalid(prefix + m))
      case NotAnArray => Fail(Invalid(prefix + "Invalid alert rules data: expected an array"))
      case RuleArray(rs) =>
        var rules := AssignIds(rs, ids);
        Ok(Imported(rules, |rules|))
  }

  /** An import succeeds exactly for JSON arrays; it reports the number of rules, keeps
      their order and gives every id-less rule a generated id. */
  lemma ImportLaws(data: Parsed, format: string, ids: nat -> string)
    ensures Import(data, format, ids).Ok? <==> format == "json" && data.RuleArray?
    ensures Import(data, format, ids).Ok? ==>
      var im := Import(data, format, ids).value;
      im.imported == |im.rules| == |data.rules| &&
      forall k :: 0 <= k < |im.rules| ==>
        im.rules[k].name == data.rules[k].name &&
        (data.rules[k].id != "" ==> im.rules[k] == data.rules[k]) &&
        (data.rules[k].id == "" ==> im.rules[k].id == ids(k))
  {
  }

  /** Exporting rules that all have ids and importing the result restores them. */
  lemma ExportImportRoundTrip(rules: seq<Rule>, format: string, ids: nat -> string)
    requires forall k :: 0 <= k < |rules| ==> rules[k].id != ""
    requires Export(rules, format).Ok?
    ensures Import(RuleArray(Export(rules, format).value), "json", ids) == Ok(Imported(rules, |rules|))
  {
    assert AssignIds(rules, ids) == rules;
  }

  /** Only json and yaml export. */
  lemma ExportFormats(rules: seq<Rule>, format: string)
    ensures Export(rules, format).Ok? <==> format in {"json", "yaml"}
  {
  }

  // ------------------------------------------------------------------------
  // The module-level state as an object
  // ------------------------------------------------------------------------

  /** The module's `alertRules`, `alertHistory` and `activeAlerts`. */
  class AlertEngine {
    var rules: seq<Rule>
    var history: seq<AlertRecord>
    var active: map<string, ActiveAlert>

    ghost predicate Valid() reads this {
      |history| <= HistoryCap
    }

    function State(): AlertState reads this {
      AlertState(rules, history, active)
    }

    constructor (initialRules: seq<Rule>)
      ensures Valid() && State() == AlertState(initialRules, [], map[])
    {
      rules := initialRules;
      history := [];
      active := map[];
    }

    /** `addAlertRule(rule)` */
    method AddRule(input: RuleInput, freshId: string, now: int) returns (r: Rule)
      requires Valid()
      modifies this
      ensures Valid()
      ensures r == NewRule(input, freshId, now)
      ensures rules == old(rules) + [r] && history == old(history) && active == old(active)
    {
      r := NewRule(input, freshId, now);
      rules := rules + [r];
    }

    /** `updateAlertRule(ruleId, updates)` */
    method UpdateRule(ruleId: string, p: RulePatch, now: int) returns (res: Result<Rule>)
      requires Valid()
      modifies this
      ensures Valid()
      ensures var spec := RuleUpdate(old(rules), ruleId, p, now);
        (spec.Fail? ==> res == Fail(spec.error) && rules == old(rules)) &&
        (spec.Ok? ==> res == Ok(spec.value.1) && rules == spec.value.0)
      ensures history == old(history) && active == old(active)
    {
      var i := IndexOf(rules, RuleId, ruleId);
      if i < 0 {
        return Fail(NotFound("Alert rule not found: " + ruleId));
      }
      var r := PatchRule(rules[i], p, ruleId, now);
      rules := rules[i := r];
      res := Ok(r);
    }

    /** `deleteAlertRule(ruleId)` */
    method DeleteRule(ruleId: string) returns (res: Result<Rule>)
      requires Valid()
      modifies this
      ensures Valid()
      ensures var spec := RuleRemoval(old(rules), ruleId);
        (spec.Fail? ==> res == Fail(spec.error) && rules == old(rules)) &&
        (spec.Ok? ==> res == Ok(spec.value.1) && rules == spec.value.0)
      ensures history == old(history) && active == old(active)
    {
      var i := IndexOf(rules, RuleId, ruleId);
      if i < 0 {
        return Fail(NotFound("Alert rule not found: " + ruleId));
      }
      res := Ok(rules[i]);
      rules := rules[..i] + rules[i + 1..];
    }

    /** `triggerAlert(alert)` */
    method TriggerAlert(a: Descriptor, id: string, now: int) returns (record: Option<AlertRecord>, notices: seq<Notice>)
      requires Valid()
      modifies this
      ensures Valid()
      ensures var t := Trigger(old(State()), a, id, now);
        State() == t.state && record == t.record && notices == t.notices
    {
      var key := AlertKey(a.ruleId, a.value);
      if key in active {
        return None, [];
      }
      active := active[key := ActiveAlert(a, false, false)];
      var rule := FindRule(rules, a.ruleId);
      var r := AlertRecord(id, a, if rule.Some? then rule.value.description else "",
                           if rule.Some? then rule.value.actions else [], false, None, false, None, now);
      history := [r] + history;
      if |history| > HistoryCap {
        history := history[..HistoryCap];
      }
      record := Some(r);
      notices := [];
      if rule.Some? {
        var acts := rule.value.actions;
        var k := 0;
        while k < |acts|
          invariant 0 <= k <= |acts|
          invariant notices == Dispatch(acts[..k], r)
        {
          notices := notices + [ActionNotice(acts[k], r)];
          k := k + 1;
        }
        assert acts[..k] == acts;
      }
    }

    /** `acknowledgeAlert(alertId)`: an in-place write to the first record with the id. */
    method AcknowledgeAlert(alertId: string, now: int) returns (record: Option<AlertRecord>)
      requires Valid()
      modifies this
      ensures Valid()
      ensures var u := Acknowledge(old(State()), alertId, now);
        State() == u.state && record == u.record
    {
      var i := IndexOf(history, RecordId, alertId);
      if i < 0 {
        return None;
      }
      var r := history[i].(acknowledged := true, acknowledgedAt := Some(now));
      history := history[i := r];
      record := Some(r);
    }

    /** `resolveAlert(alertId)`: an in-place write plus removal of the dedup key. */
    method ResolveAlert(alertId: string, now: int) returns (record: Option<AlertRecord>)
      requires Valid()
      modifies this
      ensures Valid()
      ensures var u := Resolve(old(State()), alertId, now);
        State() == u.state && record == u.record
    {
      var i := IndexOf(history, RecordId, alertId);
      if i < 0 {
        return None;
      }
      var r := history[i].(resolved := true, resolvedAt := Some(now));
      history := history[i := r];
      active := active - {AlertKey(r.alert.ruleId, r.alert.value)};
      record := Some(r);
    }

    /** `evaluateAlerts(data)`: every rule in order, triggering what fires. */
    method EvaluateAlerts(data: Snapshot, now: int, ids: nat -> string) returns (triggered: seq<AlertRecord>)
      requires Valid()
      modifies this
      ensures Valid()
      ensures var p := EvaluateAll(old(State()), data, now, ids);
        State() == p.state && triggered == p.records
    {
      ghost var s0 := State();
      var rs := rules;
      triggered := [];
      ghost var notices: seq<Notice> := [];
      var i := 0;
      while i < |rs|
        invariant 0 <= i <= |rs| && rs == s0.rules
        invariant Valid()
        invariant var p := EvaluateRules(s0, rs[..i], data, now, ids);
          State() == p.state && triggered == p.records && notices == p.notices
      {
        assert rs[..i + 1][..i] == rs[..i];
        var alert := Evaluate(rs[i], data, now);
        if alert.Some? {
          var record, ns := TriggerAlert(alert.value, ids(i), now);
          notices := notices + ns;
          if record.Some? {
            triggered := triggered + [record.value];
          }
        }
        i := i + 1;
      }
      assert rs[..i] == rs;
    }

    /** `getAlertStatistics()`: one pass over the history. */
    method Statistics(now: int) returns (st: AlertStats)
      requires Valid()
      ensures st == StatsOf(State(), now)
    {
      var bySeverity := SeverityInit;
      var acknowledged, resolved, pending, recent := 0, 0, 0, 0;
      var i := 0;
      while i < |history|
        invariant 0 <= i <= |history|
        invariant bySeverity == CountBy(SeverityInit, history[..i], Severity)
        invariant acknowledged == Count(history[..i], IsAcknowledged)
        invariant resolved == Count(history[..i], IsResolvedOnly)
        invariant pending == Count(history[..i], IsPending)
        invariant recent == Count(history[..i], CreatedSince(now - DayMillis))
      {
        var r := history[i];
        CountBySnoc(SeverityInit, history, i, Severity);
        CountSnoc(history, i, IsAcknowledged);
        CountSnoc(history, i, IsResolvedOnly);
        CountSnoc(history, i, IsPending);
        CountSnoc(history, i, CreatedSince(now - DayMillis));
        bySeverity := Bump(bySeverity, r.alert.severity);
        if r.acknowledged {
          acknowledged := acknowledged + 1;
        } else if r.resolved {
          resolved := resolved + 1;
        } else {
          pending := pending + 1;
        }
        if r.createdAt > now - DayMillis {
          recent := recent + 1;
        }
        i := i + 1;
      }
      TakeAll(history);
      st := AlertStats(|history|, |active|, bySeverity, acknowledged, resolved, pending, recent);
    }

    /** `importAlertRules(data, format)`: replaces the whole rule set on success. */
    method ImportRules(data: Parsed, format: string, ids: nat -> string) returns (res: Result<nat>)
      requires Valid()
      modifies this
      ensures Valid()
      ensures var spec := Import(data, format, ids);
        (spec.Fail? ==> res == Fail(spec.error) && rules == old(rules)) &&
        (spec.Ok? ==> res == Ok(spec.value.imported) && rules == spec.value.rules)
      ensures history == old(history) && active == old(active)
    {
      var spec := Import(data, format, ids);
      if spec.Fail? {
        return Fail(spec.error);
      }
      var rs := data.rules;
      var out: seq<Rule> := [];
      var k := 0;
      while k < |rs|
        invariant 0 <= k <= |rs|
        invariant |out| == k
        invariant forall j :: 0 <= j < k ==> out[j] == (if rs[j].id == "" then rs[j].(id := ids(j)) else rs[j])
      {
        var r := rs[k];
        if r.id == "" {
          r := r.(id := ids(k));
        }
        out := out + [r];
        k := k + 1;
      }
      rules := out;
      res := Ok(|out|);
    }
  }
}
