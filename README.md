# k8s-guardian core, modelled in Dafny

k8s-guardian is a Kubernetes operations assistant. It keeps in-memory stores and analyses
cluster snapshots. The stores are alert rules and alerts, automation scripts with their
schedules and run history, audit logs and security events, and tenants with their users.
The analyses cover health, events, logs, RBAC, networking, storage and resource use.
This project models that core and proves what each operation promises.

| module (file) | source | what it holds |
|---|---|---|
| `Js` (js.dfy) | shared | JavaScript semantics the core relies on. Values (`JsVal`: integers, strings, booleans, null, undefined, NaN) and `<`/`>`/`<=`/`>=` on them. Truthiness and `\|\|` defaults. `split`, `join`, `indexOf`, `includes` and ASCII `toLowerCase`. Objects used as dictionaries become association lists in insertion order (`Dict`), with the count-by and group-by folds. |
| `Cluster` (cluster.dfy) | shared | Container restart counts and node conditions, read the same way by several files |
| `Quantity` (quantity.dfy) | src/health.js, src/storage.js | The `parseFloat` prefix reader, the `<digits><unit>` match, and both quantity parsers |
| `Alerts` (alerts.dfy) | src/alerts.js | Rule creation and validation, field extraction, condition evaluation, and the class `AlertEngine`. `AlertEngine` holds the rule list, the active-alert map and the newest-first capped history as fields, and its methods update them in place. |
| `Automation` (automation.dfy) | src/automation.js | Script CRUD and the task table. The executor and its run history. The builtin remediation handlers. All of these live in the class `Registry`. |
| `Audit` (audit.dfy) | src/audit.js | Audit logs and security events in the class `AuditStore`. The compliance score, and the pod, node, namespace, secret and RBAC finding generators as loops. |
| `Tenancy` (tenancy.dfy) | src/multitenancy.js | Tenant and tenant-user CRUD in the class `TenantStore`, plus the listing filters, the statistics and the role verbs |
| `Health` (health.dfy) | src/health.js | Node and pod health and the overall verdict |
| `Events` (events.dfy) | src/events.js | Event counts, the recent and critical lists, and event alerts |
| `Logs` (logs.dfy) | src/logs.js | The level cascade, security and keyword detection, recommendations, plain-text search, filtering and log statistics |
| `Rbac`, `Network`, `Storage`, `Resource` | src/rbac.js, src/network.js, src/storage.js, src/resource.js | The configuration analysers |

The following are parameters of the model, not computed by it:

- the clock (milliseconds) and the ids that `Date.now` and `Math.random` would produce;
- what the Kubernetes client returns: the `Env` of the automation handlers, listings that either hold items or fail, and a predicate telling which individual calls succeed;
- how a custom script's child process ended.

Stores that the source mutates are classes. Each class has a pure value-state datatype and spec functions over it. Each method's `ensures` ties its new state to those functions, and lemmas state what the functions promise.

### Behaviour of the code worth knowing

The model keeps each of these behaviours.

- `acknowledgeAlert` and `resolveAlert` return `null` for an unknown id rather than failing. Acknowledging works on any history record and never touches the active map, so an active entry keeps `acknowledged: false`.
- The deduplication key is the string `${ruleId}-${value}`, not the pair, so two different (rule, value) pairs can share a key.
- Builtin handlers receive the script's own `parameters`, not the parameters merged with the call's. The merged ones are only recorded in the execution.
- `update-image-tags` keeps the image text before the first `:` and appends the new tag, so a registry port in the image name is dropped.
- `updateAutomationScript` unschedules only when the old schedule was non-empty. When ids are distinct this is the same as always unscheduling. Callers choose ids, though, so two scripts can share one. An update of the first such script, when it has no schedule, then leaves the task the second one filed (`Automation.UpdateKeepsTwinTask`).
- `deleteTenant` removes only the first user of the deleted tenant.
- `check-node-health` computes `healthyNodes` as total minus unhealthy issues. Because one node can raise several issues, the result can be negative.
- The level cascades of `analyzePodLogs` and `getLogStats` differ on lines that contain `err` but not `error`.
- With no pods, the pod health ratio is 0, so an empty cluster is Unhealthy.

## Model

| member | source | states |
|---|---|---|
| Alerts.NewRule | src/alerts.js:191-207 | a new rule keeps a given non-empty id, description, severity and actions and its name and condition, otherwise takes the generated id, an empty description, severity `info` and actions `["log"]`; it is enabled unless `enabled` is exactly false, and has equal creation and update stamps |
| Alerts.AlertEngine.AddRule | src/alerts.js:191-207 | the new rule is appended at the end of the rule list; history and active alerts are unchanged |
| Alerts.UpdateRuleLaws | src/alerts.js:209-224 | an update fails exactly when no rule has the id; otherwise the first rule with that id is rewritten in place, keeps its id, takes every patched field (a patched `createdAt` included) and keeps every unpatched one, and every other rule is unchanged |
| Alerts.AlertEngine.UpdateRule | src/alerts.js:209-224 | the stored rules become the result of the update, or stay as they were on failure; history and active alerts are unchanged |
| Alerts.DeleteRuleLaws | src/alerts.js:226-235 | a delete fails exactly when no rule has the id; otherwise only the first rule with that id is removed and the rest keep their order |
| Alerts.AlertEngine.DeleteRule | src/alerts.js:226-235 | the stored rules become the result of the delete, or stay as they were on failure |
| Alerts.ListRules | src/alerts.js:237-249 | a rule is listed exactly when it is stored and matches the `enabled` filter and a non-empty severity filter; the result keeps the stored order and lists every matching entry once, as many as match |
| Alerts.OrZero | src/alerts.js:331-334 | `x \|\| 0` keeps a truthy value and turns every falsy one into 0 |
| Alerts.PodValueLaws | src/alerts.js:327-343 | restart count is the sum over containers with missing counts read as 0; cpu and memory default to 0; age is elapsed whole seconds rounded down, or NaN without a creation stamp; unknown fields give null |
| Alerts.NodeValueLaws | src/alerts.js:345-364 | `ready` is true exactly when the first Ready condition has status `True`, so a node with no Ready condition reads as not ready; condition fields are booleans; only unknown fields give null |
| Alerts.EventValueLaws | src/alerts.js:366-377 | the event reader passes `reason` through and gives null for unknown fields |
| Alerts.EvaluateLaws | src/alerts.js:259-325 | a rule fires exactly when it is enabled, its condition type is pod, node or event, the value is not nullish, the operator is known and the comparison holds; the descriptor copies the rule's id, name, severity, threshold, operator and the compared value |
| Alerts.OperatorLaws | src/alerts.js:283-309 | on numbers the ordering operators are integer comparisons; `!=` and `not-contains` negate `==` and `contains`; NaN satisfies no ordering and is not equal to itself |
| Alerts.ContainsUsesText | src/alerts.js:302-307 | `contains` compares the value's text (15 contains "5"), while `==` is strict (5 is not "5") |
| Alerts.Dispatch | src/alerts.js:435-437 | one notice is produced per action of the rule |
| Alerts.Trigger | src/alerts.js:379-418 | triggering keeps the rules, keeps every existing active key, and leaves the alert's own key active |
| Alerts.TriggerLaws | src/alerts.js:379-418 | an alert whose `ruleId-value` key is active returns nothing and changes nothing; otherwise the key becomes active and exactly one new unacknowledged, unresolved record is put at the head of a history capped at 1000 |
| Alerts.AlertEngine.TriggerAlert | src/alerts.js:379-418 | the stored state, returned record and notices are those of the trigger function |
| Alerts.AlertKeyCollisions | src/alerts.js:380 | the dedup key is bare concatenation, so distinct (rule id, value) pairs, and a number and its text, can share a key |
| Alerts.AcknowledgeLaws | src/alerts.js:441-450 | acknowledging an unknown id gives null and changes nothing; otherwise only the first record with the id is marked acknowledged with the time stamp, and the active map is untouched |
| Alerts.AlertEngine.AcknowledgeAlert | src/alerts.js:441-450 | the stored state and the result are those of the acknowledge function |
| Alerts.ResolveLaws | src/alerts.js:452-465 | resolving an unknown id gives null and changes nothing; otherwise the first record with the id is marked resolved, its dedup key is removed, and all other records and active keys are unchanged |
| Alerts.AlertEngine.ResolveAlert | src/alerts.js:452-465 | the stored state and the result are those of the resolve function |
| Alerts.ResolveRearms | src/alerts.js:379-384 | after a trigger and a resolve of its record, the same alert triggers again (also lines 452-465) |
| Alerts.AcknowledgeDoesNotRearm | src/alerts.js:379-450 | after a trigger and an acknowledge, the same alert still triggers nothing |
| Alerts.ActiveAlerts | src/alerts.js:489-491 | the result holds exactly the values of the active map |
| Alerts.ActiveUnmarkedPreserved | src/alerts.js:386-465 | trigger, acknowledge and resolve keep every active entry marked unacknowledged, so active alerts never show as acknowledged |
| Alerts.EvaluateRules | src/alerts.js:493-507 | a pass over the rules keeps the rules and every active key |
| Alerts.EvaluatedKeysActive | src/alerts.js:493-507 | after a pass, the key of every descriptor the rules produce is active |
| Alerts.PassOverActive | src/alerts.js:493-507 | a pass in which every descriptor is already active triggers nothing and changes nothing |
| Alerts.EvaluateTwice | src/alerts.js:493-507 | evaluating the same data twice at the same clock triggers nothing the second time and leaves the state unchanged |
| Alerts.AlertEngine.EvaluateAlerts | src/alerts.js:493-507 | the stored state and the triggered records are those of the evaluation pass |
| Alerts.HistoryQueryLaws | src/alerts.js:467-487 | the history query returns records passing every given filter, as many matches as `Count` finds, in stored order: all of them without a limit, exactly the first `limit` with a positive limit (so every match among the first `limit` is returned), and all but the last `-limit` with a negative one, as `slice(0, limit)` does |
| Alerts.StatusPartition | src/alerts.js:530-536 | every record is counted under exactly one of acknowledged, resolved and pending |
| Alerts.StatsLaws | src/alerts.js:509-547 | the status counts sum to the total, the severity counts sum to the total, and each severity count is its initial value plus the number of records with that severity |
| Alerts.AlertEngine.Statistics | src/alerts.js:509-547 | the loop computes exactly the statistics function of the current state |
| Alerts.AssignIds | src/alerts.js:573-577 | imported rules keep their order; each rule without an id gets the generated one, and the others are unchanged |
| Alerts.ImportLaws | src/alerts.js:560-587 | an import succeeds exactly for json data that parses to an array; it reports the number of rules and gives every id-less rule a generated id |
| Alerts.ExportImportRoundTrip | src/alerts.js:549-587 | exporting rules that all have ids and importing the result restores the same rules |
| Alerts.ExportFormats | src/alerts.js:549-558 | export succeeds exactly for the formats json and yaml |
| Alerts.AlertEngine.ImportRules | src/alerts.js:560-587 | on success the rule set is replaced by the imported rules; on failure it is unchanged |
| Automation.NewScript | src/automation.js:187-200 | a new script keeps a given non-empty id, type and non-zero timeout, a given description, schedule and parameters, and its name and script text; otherwise it takes the generated id, type `custom`, a 300-second timeout (also when 0), an empty description and schedule and no parameters; it is enabled unless `enabled` is exactly false, and has equal creation and update stamps |
| Automation.AddScriptLaws | src/automation.js:187-210 | adding appends the script and keeps every task sound; when no task is filed under the new id, one exists afterwards exactly when the script is enabled with a schedule, and it runs that schedule |
| Automation.Registry.AddScript | src/automation.js:187-210 | the stored scripts and tasks become those of the addition function |
| Automation.Schedule | src/automation.js:273-286 | after scheduling the script's id has a task and no existing task is lost |
| Automation.Unschedule | src/automation.js:288-295 | after unscheduling the id has no task |
| Automation.ScheduleLaws | src/automation.js:273-295 | scheduling is idempotent, leaves an id that already has a task untouched, files a new task under the script's schedule, and touches no other id; unscheduling removes exactly the one id |
| Automation.Registry.ScheduleScript | src/automation.js:273-286 | the task map becomes the result of scheduling; scripts and history are unchanged |
| Automation.Registry.UnscheduleScript | src/automation.js:288-295 | the task map becomes the result of unscheduling; scripts and history are unchanged |
| Automation.UpdateScriptFails | src/automation.js:212-216 | an update fails exactly when no script has the id |
| Automation.UpdateKeepsTasksSound | src/automation.js:218-234 | replacing a script by a same-id script, and either refiling that id's task by the new script or, when the old script had no task of its own, leaving the entry, keeps every task sound |
| Automation.UpdateScriptSucceeds | src/automation.js:212-237 | a successful update rewrites the first script with the id in place by the merge `{...script, ...updates, id, updatedAt: now}`: every field the updates set wins and every other keeps its old value; it keeps the id, the history, the tasks sound and distinct ids distinct; no other id gains, loses or changes a task; and when the old script had a schedule, no task was filed under the id, or ids are distinct, the id has a task exactly when the merged script is enabled with a schedule, running the merged schedule |
| Automation.RefileLaws | src/automation.js:228-234 | refiling after an update touches only the id's entry: it refiles it by the merged script when the old script had a schedule or the id had no task, and otherwise leaves the old entry |
| Automation.UpdateScriptLaws | src/automation.js:212-237 | an update fails exactly when no script has the id, and a successful one has all the properties of `UpdateScriptSucceeds`: the merged fields, the history kept, the tasks sound and refiled, on any registry with sound tasks |
| Automation.UpdateKeepsTwinTask | src/automation.js:212-237 | with two scripts sharing an id, updating the first one, which has no schedule, leaves the task the second one filed under the id, so the id keeps a task although the merged script is not enabled with a schedule |
| Automation.Registry.UpdateScript | src/automation.js:212-237 | the stored state becomes the result of the update function, or stays as it was on failure |
| Automation.RemovalKeepsTasksSound | src/automation.js:245-247 | removing a script together with the task under its id keeps every remaining task sound |
| Automation.DeleteScriptFails | src/automation.js:239-243 | a delete fails exactly when no script has the id |
| Automation.DeleteScriptSucceeds | src/automation.js:239-249 | a successful delete removes exactly the first script with the id, keeps the others in their order, removes the task under the id and keeps every other task as it was, keeps the tasks sound and leaves the history as it was |
| Automation.DeleteScriptLaws | src/automation.js:239-249 | both the failure condition and the success properties of a delete: the first script with the id goes, the others keep their order, and only the id's task goes |
| Automation.Registry.DeleteScript | src/automation.js:239-249 | the stored state becomes the result of the delete function, or stays as it was on failure |
| Automation.ScheduleAll | src/automation.js:705-711 | starting all tasks never drops an existing task |
| Automation.ScheduleAllKeys | src/automation.js:705-711 | starting all tasks adds tasks under the ids of exactly the enabled scripts with a schedule |
| Automation.ScheduleAllLaws | src/automation.js:705-711 | after starting all tasks every enabled script with a schedule has a task, every new task belongs to such a script, and sound tasks stay sound |
| Automation.Registry.StartAll | src/automation.js:705-711 | the task map becomes the result of starting all tasks over the stored scripts |
| Automation.Registry.StopAll | src/automation.js:713-719 | stopping all tasks empties the task map and changes nothing else |
| Automation.ListScripts | src/automation.js:251-263 | a script is listed exactly when it is stored and matches the `enabled` filter and a non-empty type filter; the result keeps the stored order and lists every matching entry once, as many as match |
| Automation.DefaultSchedulable | src/automation.js:68-185 | there are eight default scripts, and only the first and the sixth are enabled with a schedule |
| Automation.TwoScheduled | src/automation.js:705-711 | when exactly two scripts are enabled with a schedule, starting from no tasks files tasks under exactly their two ids |
| Automation.DefaultSchedule | src/automation.js:68-185 | starting all tasks over the defaults schedules exactly the evicted-pod cleanup and the node health check (also lines 705-711) |
| Automation.AcceptedLaws | src/automation.js:437-448 | only calls the cluster accepted are reported, one name each |
| Automation.CleanupEvictedLaws | src/automation.js:421-454 | the cleanup always completes; a dry run sends nothing, and a real run sends one delete per Failed/Evicted pod and to no other pod, whether earlier deletes failed or not |
| Automation.DeleteEach | src/automation.js:437-479 | the delete loop sends one request per target pod in order, and reports the names of the accepted ones |
| Automation.CleanupEvictedPods | src/automation.js:421-454 | the method computes exactly the cleanup function |
| Automation.CrashingLaws | src/automation.js:460-463 | with a numeric threshold a pod is restarted exactly when its restart total reaches it; with no threshold nothing is restarted |
| Automation.RestartCrashingPods | src/automation.js:456-482 | the method computes exactly the restart function |
| Automation.CurrentReplicas | src/automation.js:490 | a missing or zero replica count reads as 1, and any other count as itself |
| Automation.ScaleCallLaws | src/automation.js:489-499 | a deployment is scaled to one more than its current count exactly when that count is below a numeric `maxReplicas`; without `maxReplicas` every deployment is scaled, and a deployment at 0 replicas is scaled to 2 |
| Automation.ScaleDeployment | src/automation.js:484-524 | the method computes exactly the scaling function |
| Automation.HealthyNodesBound | src/automation.js:556-590 | each node raises at most two issues, so `healthyNodes` is never below minus the node count |
| Automation.HealthyNodesCanBeNegative | src/automation.js:587-589 | a single node that is not ready and under pressure makes `healthyNodes` equal to -1 |
| Automation.CheckNodeHealth | src/automation.js:556-590 | the method fails exactly as the node-check function does, and otherwise every node has a condition list and the issues are all nodes' issues in order |
| Automation.Retag | src/automation.js:608-612 | an image without `:` is unchanged; any other image keeps the text before its first `:` and gets the new tag |
| Automation.RetagIdempotent | src/automation.js:608-612 | retagging twice with a colon-free tag is the same as retagging once |
| Automation.RetagDropsPort | src/automation.js:610 | a registry port is lost along with the old tag: `host:port/repo:old` becomes `host:tag` |
| Automation.RetagContainers | src/automation.js:604-613 | the container loop rewrites every image, and reports a change exactly when some image contains `:` |
| Automation.UpdateImageTags | src/automation.js:599-640 | the method computes exactly the image-tag update function |
| Automation.ExecuteBuiltin | src/automation.js:358-382 | the method computes exactly the builtin dispatch function |
| Automation.Run | src/automation.js:320-341 | the `try` block gives exactly the finished record of the script's outcome |
| Automation.ExecuteLaws | src/automation.js:297-352 | an unknown id fails and records nothing; a known one records exactly one finished run at the head of a history capped at 1000, with the caller's parameters over the script's, a whole-second duration rounded down, and `success` exactly when the handler completed |
| Automation.Registry.ExecuteScript | src/automation.js:297-352 | the stored state becomes the result of the execute function, or stays as it was on failure |
| Automation.CallerParamsDoNotReachHandlers | src/automation.js:311-378 | builtin handlers see the script's own parameters, so the caller's parameters change nothing about the status, output or error |
| Automation.UnknownScriptsFail | src/automation.js:324-380 | a script of an unknown type, or a builtin with an unknown name, fails with the matching message |
| Automation.HistoryQuery | src/automation.js:642-658 | the history query returns only stored runs passing both filters, at most a positive limit of them, and without a limit every passing run |
| Automation.HistoryQueryLaws | src/automation.js:642-658 | the run-history query returns runs passing both filters, as many matches as `Count` finds, in stored order: all of them without a limit, exactly the first `limit` with a positive limit (so every match among the first `limit` is returned), and all but the last `-limit` with a negative one, as `slice(0, limit)` does |
| Automation.TallyAllAt | src/automation.js:683-697 | for one id: no entry exactly when no run is of that script; otherwise its counts are that script's runs, successful runs and failed runs, and its name is that of its first run |
| Automation.TallyAllLaws | src/automation.js:683-697 | `byScript` has no id twice and an entry for an id exactly when some run is of that script; its `total`, `success` and `failed` count that script's runs, successful runs and failed runs, and its `name` is that of the script's first run in the history; the totals count every execution once |
| Automation.StatusCountsBound | src/automation.js:670-672 | the success, failure and running counts together never exceed the number of executions |
| Automation.StatsLaws | src/automation.js:664-703 | the per-script totals add up to the number of executions; for every id, `byScript` has an entry exactly when the id has runs, counting its runs, successes and failures and naming it after its first run, with no id twice; the three status counts never exceed the total |
| Automation.Registry.Statistics | src/automation.js:664-703 | the method computes exactly the statistics function of the current state |
| Automation.ExecuteLeavesNoRunning | src/automation.js:297-352 | a history that only `executeScript` wrote never holds a `running` run |
| Automation.RunCustom | src/automation.js:384-419 | a custom script succeeds exactly when the process exits with code 0, with stdout or, when that is empty, stderr as output and no cluster call; a spawn error is passed through, and a timeout fails with the timeout message |
| Audit.NewAuditLog | src/audit.js:90-105 | the audit record carries the given id, time and action; type, category, severity, source, user and result keep a given non-empty value and otherwise fall back to `unknown`, `general`, `info`, `system`, `system` and `success`; ip address and user agent keep a given non-empty value and are otherwise null |
| Audit.LogEvent | src/audit.js:107-112 | the new record is put at the head of the log, which is capped at 10000 and otherwise keeps the earlier records in order |
| Audit.AuditStore.LogAuditEvent | src/audit.js:90-116 | the stored log becomes the log after insertion; the security events are unchanged |
| Audit.AuditLogsLaws | src/audit.js:122-154 | the query returns logs satisfying every given option, as many matches as `Count` finds, in stored order: all of them without a limit, exactly the first `limit` with a positive limit (so every match among the first `limit` is returned), and all but the last `-limit` with a negative one, as `slice(0, limit)` does |
| Audit.NewEvent | src/audit.js:160-179 | a new security event is open, unacknowledged and unresolved, stamped `now` and keeps its title; type, severity, description, source and remediation are kept when given non-empty and otherwise default to `unknown`, `medium`, empty, `system` and empty; affected resources are kept when given and otherwise empty |
| Audit.CreateEvent | src/audit.js:181-186 | the new event is put at the head of the list, which is capped at 5000 and otherwise keeps the earlier events in order |
| Audit.AuditStore.CreateSecurityEvent | src/audit.js:160-190 | the stored events become the list after insertion; the audit log is unchanged |
| Audit.AcknowledgeEventLaws | src/audit.js:234-247 | acknowledging fails exactly on an unknown id; otherwise the first event with the id records who acknowledged it and when, keeps its status and resolution, and every other event is unchanged |
| Audit.AuditStore.AcknowledgeSecurityEvent | src/audit.js:234-247 | the stored events become the result of the acknowledge function, or stay as they were on failure |
| Audit.ResolveEventLaws | src/audit.js:249-263 | resolving fails exactly on an unknown id; otherwise the first event with the id is resolved with status `resolved`, keeps its acknowledgement, and every other event is unchanged |
| Audit.AuditStore.ResolveSecurityEvent | src/audit.js:249-263 | the stored events become the result of the resolve function, or stay as they were on failure |
| Audit.LifecyclePreserved | src/audit.js:160-190 | creating, acknowledging and resolving keep every event either open and unresolved or resolved with status `resolved` (also lines 234-263) |
| Audit.SecurityEventsLaws | src/audit.js:196-228 | the query returns events satisfying every given option, as many matches as `Count` finds, in stored order: all of them without a limit, exactly the first `limit` with a positive limit (so every match among the first `limit` is returned), and all but the last `-limit` with a negative one, as `slice(0, limit)` does |
| Audit.OpenResolvedSplit | src/audit.js:669-672 | for events in the lifecycle, the open count plus the resolved count is the number of events |
| Audit.SecurityStatsLaws | src/audit.js:667-697 | the type counts and the severity counts each sum to the number of events, and every lifecycle event is counted as open or resolved, never both |
| Audit.SecurityStatistics | src/audit.js:683-685 | the loop computes exactly the statistics function |
| Audit.Weight | src/audit.js:593-604 | every severity weighs at most 50, and unknown severities weigh 0 |
| Audit.TotalWeightBound | src/audit.js:602-607 | the total weight is at most 50 per finding |
| Audit.AllCriticalWeight | src/audit.js:602-607 | when every finding is critical, the total weight is exactly 50 per finding |
| Audit.ComplianceScoreLaws | src/audit.js:588-610 | the score is 100 without findings, always lies in 0..100, is 0 when every finding is critical, and otherwise is the exact ratio rounded to the nearest integer |
| Audit.CalculateComplianceScore | src/audit.js:588-610 | the loop computes exactly the score function |
| Audit.PodSecurityCritical | src/audit.js:330-396 | the critical pod findings are exactly the privileged containers, one each |
| Audit.CheckContainer | src/audit.js:360-391 | the three checks on one container push exactly that container's findings: a missing security context, privileged mode, resources without limits |
| Audit.CheckContainers | src/audit.js:359-392 | the loop over one pod's containers yields the concatenation of each container's findings |
| Audit.CheckPod | src/audit.js:333-393 | one pod's findings are its pod-level findings followed by its containers' findings |
| Audit.CheckPodSecurity | src/audit.js:330-396 | the loop over the pods yields exactly the pod-security findings |
| Audit.NodeLowCount | src/audit.js:398-430 | there is one `low` finding per node without taints |
| Audit.NodeInfoCount | src/audit.js:398-430 | there is one `info` finding per node without a role label |
| Audit.NodeOnlyLowInfo | src/audit.js:398-430 | every node finding is `low` or `info` |
| Audit.NodeSecurityLaws | src/audit.js:398-430 | one `low` finding per untainted node, one `info` finding per node without a role label, and nothing else |
| Audit.CheckNodeSecurity | src/audit.js:398-430 | the loop yields exactly the node-security findings |
| Audit.NamespaceLowCount | src/audit.js:432-463 | there is one `low` finding per namespace with neither descriptive label |
| Audit.NamespaceInfoCount | src/audit.js:432-463 | there is one `info` finding per namespace named `default` |
| Audit.NamespaceSecurityLaws | src/audit.js:432-463 | one `low` finding per namespace with neither descriptive label, and one `info` finding per namespace named `default` |
| Audit.CheckNamespaceSecurity | src/audit.js:432-463 | the loop yields exactly the namespace-security findings |
| Audit.SecretFindings | src/audit.js:471-494 | a secret draws one `medium` finding if it is Opaque with data keys and one if it carries the last-applied annotation |
| Audit.SecretSecurityLaws | src/audit.js:465-499 | every secret finding is `medium`; the number of findings is the sum over the secrets of one for Opaque-with-data plus one for the last-applied annotation, so an Opaque secret without data and without the annotation draws none |
| Audit.CheckSecretSecurity | src/audit.js:465-499 | the loop yields exactly the secret-security findings |
| Audit.SubjectFindings | src/audit.js:505-527 | every finding about a binding subject is a critical ClusterRoleBinding finding |
| Audit.RuleFindings | src/audit.js:531-553 | every finding about a ClusterRole rule is a `high` ClusterRole finding |
| Audit.BindingFindingsCritical | src/audit.js:504-528 | binding findings are all critical, one per subject that is the authenticated or unauthenticated group |
| Audit.RoleFindingsHigh | src/audit.js:530-554 | role findings are all `high` |
| Audit.RoleFindingsCount | src/audit.js:530-554 | there is one role finding per rule with `*` among its verbs plus one per rule with `*` among its resources |
| Audit.RbacSecurityLaws | src/audit.js:501-557 | the check fails exactly when a binding has no subjects or a ClusterRole has no rules; otherwise the critical binding findings come first, one per everyone-group subject, followed only by `high` wildcard findings, one per rule with `*` among its verbs and one per rule with `*` among its resources |
| Audit.CheckSubjects | src/audit.js:505-527 | the loop over one binding's subjects yields the concatenation of each subject's findings |
| Audit.CheckRules | src/audit.js:531-553 | the loop over one ClusterRole's rules yields the concatenation of each rule's findings |
| Audit.CheckBindings | src/audit.js:504-528 | the loop fails exactly when some binding has no subjects, and otherwise yields all binding findings |
| Audit.CheckRoles | src/audit.js:530-554 | the loop fails exactly when some ClusterRole has no rules, and otherwise yields all role findings |
| Audit.CheckRbacSecurity | src/audit.js:501-557 | the method computes exactly the RBAC check function, bindings first |
| Tenancy.DefaultTenants | src/multitenancy.js:66-92 | the built-in list holds the single tenant `default`, with RBAC enabled under role `view` and the namespaces `default`, `kube-system` and `kube-public` |
| Tenancy.TenantStore.constructor | src/multitenancy.js:11-26 | a store without a tenant file starts from the built-in tenants and no users |
| Tenancy.RoleVerbsLaws | src/multitenancy.js:294-305 | the tenant role grants `*` exactly when the default role is `admin`, and otherwise get, list and watch |
| Tenancy.NamespaceRoles | src/multitenancy.js:121-130 | one namespace gets one role when RBAC is enabled and none otherwise, named after the tenant and with the verbs chosen from its default role (also lines 281-305) |
| Tenancy.ProvisionRoleCount | src/multitenancy.js:121-130 | a role is created in every namespace when RBAC is enabled, and in none otherwise |
| Tenancy.ProvisionRoleVerbs | src/multitenancy.js:121-130 | every role created carries the tenant's role name and the verbs chosen from its default role (also lines 281-305) |
| Tenancy.CreateTenantLaws | src/multitenancy.js:94-136 | creation fails exactly when provisioning fails; otherwise the new tenant is appended with the generated id and the given name; a given non-empty description and given namespaces, quotas, network policies and RBAC settings are kept; otherwise they fall back to an empty description, no namespaces, the quotas cpu `4`, memory `8Gi`, pods `50`, services `20`, claims `10`, default-deny policies and RBAC `edit`; creation and update stamps are equal |
| Tenancy.TenantStore.CreateTenant | src/multitenancy.js:94-136 | the stored tenants become the result of the creation function, or stay as they were on failure; users are unchanged |
| Tenancy.UpdateTenantLaws | src/multitenancy.js:138-154 | an update fails exactly when no tenant has the id, with `Tenant not found: <id>`; otherwise the first tenant with that id is rewritten in place, keeps its id, is stamped with the update time, takes each of name, description, namespaces, quotas, network settings, RBAC settings and `createdAt` that the patch sets and keeps the others, and no other tenant changes |
| Tenancy.EmptyPatchTouchesOnlyUpdatedAt | src/multitenancy.js:146-151 | an empty patch changes only the update stamp |
| Tenancy.TenantStore.UpdateTenant | src/multitenancy.js:138-154 | the stored tenants become the result of the update function, or stay as they were on failure |
| Tenancy.DeleteTenantFails | src/multitenancy.js:156-165 | deleting fails exactly when no tenant has the id or the cluster cannot be reached |
| Tenancy.DeleteTenantRemoves | src/multitenancy.js:175 | on success the first tenant with the id is removed and returned, and the others keep their order |
| Tenancy.DeleteTenantUsers | src/multitenancy.js:177-181 | on success the first user of the tenant, if any, is removed too, and every other user stays in order |
| Tenancy.DeleteTenantLeavesSecondUser | src/multitenancy.js:177-181 | the cascade is partial: when a tenant has two users, one of them outlives the tenant |
| Tenancy.TenantStore.DeleteTenant | src/multitenancy.js:156-183 | the stored tenants and users become the result of the delete function, or stay as they were on failure |
| Tenancy.TenantsQueryLaws | src/multitenancy.js:185-197 | the query keeps, in stored order, exactly the tenants matching every given option |
| Tenancy.AddUserLaws | src/multitenancy.js:373-393 | adding fails exactly on an unknown tenant; otherwise the user is appended with the generated id and the given username; a given non-empty role and email are kept, otherwise they are `viewer` and the empty string; given namespaces are kept, otherwise the tenant's are used |
| Tenancy.TenantStore.AddTenantUser | src/multitenancy.js:373-393 | the stored users become the result of the addition function, or stay as they were on failure |
| Tenancy.UpdateUserLaws | src/multitenancy.js:395-409 | an update fails exactly when no user has the id, with `User not found: <id>`; otherwise the first user with that id is rewritten in place, keeps its id, takes each of tenant, username, email, role, namespaces and `createdAt` that the patch sets and keeps the others, and no other user changes |
| Tenancy.TenantStore.UpdateTenantUser | src/multitenancy.js:395-409 | the stored users become the result of the update function, or stay as they were on failure |
| Tenancy.DeleteUserLaws | src/multitenancy.js:411-420 | a delete fails exactly on an unknown id; otherwise exactly the first user with the id is removed and returned, and the others keep their order |
| Tenancy.TenantStore.DeleteTenantUser | src/multitenancy.js:411-420 | the stored users become the result of the delete function, or stay as they were on failure |
| Tenancy.UsersQueryIsFilter | src/multitenancy.js:422-438 | the three successive filters are one filter by all the set conditions |
| Tenancy.UsersQueryLaws | src/multitenancy.js:422-438 | the query keeps, in stored order, exactly the users matching every given option |
| Tenancy.TenantStatsLaws | src/multitenancy.js:543-561 | the role counts sum to the number of users, count each role exactly, with no role twice; namespaces are counted once per tenant listing them |
| Tenancy.TenantStatistics | src/multitenancy.js:543-561 | the two loops compute exactly the statistics function |
| Tenancy.TenantStore.Statistics | src/multitenancy.js:543-561 | the method computes exactly the statistics function of the stored tenants and users |
| Cluster.RestartsBound | src/alerts.js:329-330 | with non-negative counts, a pod's restart total is at least each container's count (missing counts read as 0) and is non-negative |
| Cluster.NonNegativeRestarts | src/alerts.js:329-330 | with non-negative counts, a pod's restart total is non-negative |
| Cluster.FindCondition | src/alerts.js:347-356 | the lookup returns the first condition of the kind, and nothing exactly when no condition has that kind |
| Cluster.ConditionTrueMeaning | src/alerts.js:347-356 | a condition reads as true exactly when the first condition of that kind has status `True`; a missing list or a missing condition reads as false |
| Events.InsertByTimePermutes | src/events.js:90-101 | inserting one event into the sorted list adds exactly that event |
| Events.ConsLaterSorted | src/events.js:90-101 | putting an event later than the head in front of a newest-first list keeps it newest first |
| Events.BehindHead | src/events.js:90-101 | when an event goes behind the head, nothing after the head is later than the head |
| Events.InsertByTimeSorted | src/events.js:90-101 | insertion keeps a newest-first list newest first |
| Events.SortNewestLaws | src/events.js:90-101 | sorting by time permutes the events and leaves them newest first |
| Events.CountsLaws | src/events.js:55-77 | the total is the number of events; the type, reason and source counts each sum to it, and each counts its key exactly (with the `Normal` and `Unknown` defaults) |
| Events.RecentLaws | src/events.js:78-94 | the recent list is the first ten events, re-ordered newest first |
| Events.CriticalLaws | src/events.js:83-101 | the critical list holds exactly the Warning and Error events, newest first |
| Events.ListsLaws | src/events.js:78-101 | both the recent-list and the critical-list properties |
| Events.ScanEvent | src/events.js:65-87 | one step of the loop extends the accumulated analysis by one event |
| Events.AnalyzeEvents | src/events.js:53-107 | the loop and the two sorts compute exactly the analysis function |
| Events.GenerateAlerts | src/events.js:149-173 | the loop computes exactly the alert function |
| Events.AlertsLaws | src/events.js:149-173 | one alert per Warning or Error event, in input order; the level is `Critical` exactly for Error events and `Warning` exactly for Warning events; the message is the event's non-empty message, else its non-empty reason, else `Unknown event`; the source is the non-empty component, else `Unknown`; a missing involved object becomes `Unknown`/`Unknown`/`default`, and a present one gives its non-empty kind, name and namespace, each else `Unknown`, `Unknown` or `default`; the time is the last timestamp, else the first |
| Health.NodeStatusLaws | src/health.js:35-51 | a node is Unhealthy exactly when its first Ready condition is not `True`, so a node without a Ready condition is never Unhealthy; it is Degraded exactly when otherwise some first pressure or network condition is `True` |
| Health.ConditionTextLaws | src/health.js:56-62 | an absent condition is reported as `Unknown`, and a present one by the status of its first occurrence |
| Health.NodesHealthLaws | src/health.js:31-68 | the node check fails exactly when some node has no condition list; otherwise there is one report per node, in order, with its name, computed status and the text of each of its five conditions |
| Health.PodsHealthLaws | src/health.js:71-90 | `healthy` counts the Running or Succeeded pods, `unhealthy` the rest, and there is one detail per pod in input order, with its name, namespace, phase and node |
| Health.RatioAbove | src/health.js:14-19 | comparing the healthy-pod ratio with a threshold fraction is the integer comparison of cross products |
| Health.OverallLaws | src/health.js:13-22 | the cluster is Healthy exactly when every node is Healthy and more than 90% of pods are healthy, Degraded when otherwise more than 70% are, and with no pods it is Unhealthy |
| Health.CheckClusterHealth | src/health.js:4-28 | a failing node check makes the whole check fail with the wrapped message; otherwise the result holds the node reports, the pod summary and the overall verdict |
| Logs.Lines | src/logs.js:33 | splitting on newlines yields one more piece than there are newlines |
| Logs.CascadeLaws | src/logs.js:73-93 | since `error` contains `err`, a line is an error line exactly when it contains `err`; fatal, then warning, apply only when no earlier keyword occurs; an unlevelled line contains none of the six keywords |
| Logs.TallyCovers | src/logs.js:73-93 | every line is counted under exactly one level or under none |
| Logs.KeepLaws | src/logs.js:76-97 | the kept lines are exactly the lines satisfying the test, each with its 1-based number, in increasing order, and their count is the number of such lines |
| Logs.ErrorWarningTally | src/logs.js:73-84 | `errors` holds exactly the error and fatal lines and `warnings` the warning lines, so their lengths equal the counters kept beside them |
| Logs.HitsLaws | src/logs.js:139-147 | a line raises one event per security keyword it contains, each naming the line and the keyword, and none when it contains none |
| Logs.SecurityEventsSound | src/logs.js:139-147 | every security event names a line and a keyword that line contains |
| Logs.SecurityEventsBound | src/logs.js:139-147 | each line raises at most one event per keyword |
| Logs.SecurityEventsAny | src/logs.js:139-147 | there is at least one security event exactly when some line contains some keyword |
| Logs.BumpKeywordsAt | src/logs.js:150-155 | with distinct keywords, one line adds one to the count of each keyword it contains and leaves the other counts alone |
| Logs.KeywordStatsLaws | src/logs.js:150-155 | the count for each of the fourteen tracked keywords is the number of lines that mention it, and any other key is absent |
| Logs.HttpsCountsAsHttp | src/logs.js:150-155 | substring counting makes every `https` line an `http` line too |
| Logs.CountRecommendationTopic | src/logs.js:214-247 | the count-based checks recommend on a topic exactly when it is one of theirs and its threshold is passed |
| Logs.KeywordRecommendationTopic | src/logs.js:249-268 | the keyword checks recommend on a topic exactly when it is one of theirs and its threshold is passed |
| Logs.RecommendationTopic | src/logs.js:211-271 | a recommendation on a topic is present exactly when its check fires |
| Logs.RecommendationsRated | src/logs.js:211-271 | recommendations on errors, stack traces and security events are `high`, all others `medium`, and there are at most eight |
| Logs.RecommendationLaws | src/logs.js:211-271 | errors above 10, warnings above 20, any stack trace, slow requests above 5, any security event, timeout or retry mentions above 5 and memory mentions above 10 each give their recommendation, and nothing else does |
| Logs.AnalysisLaws | src/logs.js:31-99 | `totalLines` is the number of pieces; `errorCount` equals the length of `errors` and the error plus fatal levels, `warningCount` the length of `warnings`; every line has at most one level; the error, warning and stack-trace lists hold exactly the lines of their kind with their 1-based numbers |
| Logs.LineSecurityEvents | src/logs.js:139-147 | the keyword loop for one line yields exactly its security events, in keyword order |
| Logs.CountKeywords | src/logs.js:150-155 | the keyword loop for one line yields exactly the bumped counters |
| Logs.ClassifyLine | src/logs.js:73-93 | the cascade for one line bumps its level counter and appends it to the error or warning list exactly when it is such a line |
| Logs.ScanLine | src/logs.js:69-188 | one step of the line loop extends the accumulated analysis by one line |
| Logs.ScanLines | src/logs.js:69-188 | the line loop stops exactly when some line matches the database-query or API-call pattern, and otherwise yields the scan of every line |
| Logs.AnalyzePodLogs | src/logs.js:31-208 | the analysis fails with the rethrown TypeError message exactly when some line matches a pattern whose missing capture group is read; otherwise it is the line analysis |
| Logs.PodLogsAnalysisLaws | src/logs.js:116-136 | the analysis fails exactly when some line matches the database-query or API-call pattern, and then with `Failed to analyze pod logs: Cannot read properties of undefined (reading 'toUpperCase')`; otherwise it is the line analysis; logs whose lines hold no whitespace are always analysed |
| Logs.SpacelessLineIsSafe | src/logs.js:117-128 | both patterns need whitespace after the verb, so a line without whitespace matches neither |
| Logs.DbQueryAt | src/logs.js:117 | a verb, one space and an object, case-insensitively, match the database-query pattern |
| Logs.ApiCallAt | src/logs.js:127 | an HTTP method, one space, a URL scheme and a non-space character, case-insensitively, match the API-call pattern |
| Logs.InsertIntoFails | src/logs.js:117-122 | the log `INSERT INTO <table>` (one line) makes the analysis fail |
| Logs.ApiCallFails | src/logs.js:127-133 | the log `GET https://<host>` (one line, host starting with a non-space) makes the analysis fail |
| Logs.SearchLogs | src/logs.js:297-329 | the search loop computes exactly the search function |
| Logs.SearchLaws | src/logs.js:297-329 | the matches are exactly the lines containing the term, numbered from 1 and in order; `totalMatches` counts them; the empty term matches every line |
| Logs.CaseInsensitiveFindsMore | src/logs.js:310 | every case-sensitive match is also a case-insensitive match |
| Logs.FilterLogs | src/logs.js:332-387 | the filter loop computes exactly the filter function |
| Logs.FilterLaws | src/logs.js:332-387 | a line is kept exactly when it passes both the keyword test and the level test; the count is the number of kept lines; an unrecognised level and the time bounds change nothing |
| Logs.CascadesAgree | src/logs.js:73-93 | the two level cascades agree on every non-blank line except those containing `err` but not `error`, which only the analysis counts as errors (also lines 425-430) |
| Logs.CascadesDisagreeOnStderr | src/logs.js:73 | the line `stderr` is an error for the analysis but not for the statistics (also lines 425) |
| Logs.ExtremesExist | src/logs.js:413-436 | the shortest and longest lengths exist exactly when there is a non-blank line, and without one the longest length and the total are 0 |
| Logs.LengthAboveMin | src/logs.js:418-421 | the shortest length times the number of non-blank lines is at most the total length |
| Logs.LengthBelowMax | src/logs.js:418-420 | the total length is at most the longest length times the number of non-blank lines |
| Logs.UniqueBound | src/logs.js:422-435 | there are at most as many distinct non-blank lines as non-blank lines |
| Logs.StatsLaws | src/logs.js:390-442 | empty and non-empty lines make up all lines; with no non-empty line the length statistics are all 0, not Infinity; otherwise the average lies between the shortest and longest length; the unique and per-level counts never exceed the non-empty lines |
| Logs.StatsClassify | src/logs.js:424-430 | the statistics cascade for a non-blank line bumps exactly its level counter |
| Logs.StatsLine | src/logs.js:413-432 | one step of the line loop extends the accumulated statistics by one line |
| Logs.GetLogStats | src/logs.js:390-442 | the loop and the final fix-ups compute exactly the statistics function |
| Network.ExposedLaws | src/network.js:63-71 | the exposed list holds exactly the LoadBalancer and NodePort services, one entry each with the service's name, namespace, type and ports, and its k-th entry is that of the k-th such service, so the input order is kept |
| Network.ExposedInOrder | src/network.js:63-71 | the k-th exposed entry is the entry of the k-th LoadBalancer or NodePort service |
| Network.ClusterIpNotExposed | src/network.js:57-64 | a service without a type is filed as `ClusterIP` and is never exposed |
| Network.RoutesLaws | src/network.js:75-85 | each Ingress rule files one entry, under the rule's host or `*`, naming the Ingress; an Ingress without rules files nothing |
| Network.AnalysisLaws | src/network.js:34-91 | the totals are the input lengths; every policy is listed once under its namespace (or `default`) and every service once under its type (or `ClusterIP`), in input order; the host index holds one Ingress name per rule under the rule's host (or `*`), and no host appears twice |
| Network.FileRoutes | src/network.js:76-84 | filing one Ingress's rules adds exactly its routes to the host index |
| Network.AnalyzeNetworkConfig | src/network.js:34-91 | the three loops compute exactly the analysis function |
| Rbac.GrantsLaws | src/rbac.js:78-117 | there is one subject-index entry per (binding, subject) pair, filed under the subject's `kind:name` |
| Rbac.GrantKinds | src/rbac.js:83-116 | entries from RoleBindings carry type `RoleBinding` and a namespace (default `default`); entries from ClusterRoleBindings carry type `ClusterRoleBinding` and no namespace |
| Rbac.AnalysisFails | src/rbac.js:78-106 | the analysis fails exactly when some binding has no subjects |
| Rbac.RoleLaws | src/rbac.js:46-73 | otherwise the four totals are the input lengths; each Role is listed once under its namespace (or `default`) and each ClusterRole once under the text before the first `-` of its name, in input order, with no key twice |
| Rbac.SubjectIndexLaws | src/rbac.js:76-128 | the subject index holds one entry per (binding, subject) pair, the RoleBindings' before the ClusterRoleBindings', each under its subject's `kind:name`, with no key twice |
| Rbac.RoleIndexLaws | src/rbac.js:92-127 | the role index holds one entry per binding, the RoleBindings' first, each under its roleRef's `kind:name`, with no key twice |
| Rbac.FileGrants | src/rbac.js:78-117 | filing a binding's subjects fails exactly when it has none, and otherwise adds exactly its grants to the subject index |
| Rbac.FileBindings | src/rbac.js:76-128 | the loop over a list of bindings fails exactly when some binding has no subjects, and otherwise yields exactly the subject and role indexes |
| Rbac.AnalyzeRbac | src/rbac.js:44-134 | the method computes exactly the analysis function |
| Quantity.ParseFloatDigits | src/resource.js:145-146 | a run of digits followed by neither a digit nor a point reads as the integer the digits spell |
| Quantity.UnitMatchLaws | src/resource.js:125-127 | the unit pattern matches exactly strings of the form `<digits><unit>`, and then yields those digits and the unit's power of 1024 |
| Quantity.ParseResourceValueLaws | src/resource.js:114-147 | non-strings read as 0, and only a string ending in `m` can read as NaN |
| Quantity.ParseMilli | src/resource.js:120-122 | `<digits>m` reads as a thousandth of the digits' value |
| Quantity.ParsePlain | src/resource.js:144-146 | a bare run of digits reads as its integer value |
| Quantity.ParseWithUnit | src/resource.js:125-141 | `<digits><unit>` with a unit from K to Pi reads as the digits' value times 1024 to the unit's power |
| Quantity.ParseStorageCapacityLaws | src/storage.js:102-126 | `<digits><unit>` with a unit from K to Ti reads as the digits' value times 1024 to the unit's power, and every string that reads as non-zero has that form |
| Quantity.StorageRejectsPeta | src/storage.js:103-106 | Peta units, which the resource parser accepts, read as 0 capacity |
| Quantity.StorageRejectsBareNumbers | src/storage.js:103-106 | a bare number reads as 0 capacity |
| Quantity.StorageRejectsOtherForms | src/storage.js:103-106 | lower-case units and fractions read as 0 capacity |
| Resource.TotalAppend | src/resource.js:74-105 | summing two runs of containers one after the other adds their sums |
| Resource.OnlyDeclaredCount | src/resource.js:82-101 | only containers that declare a field contribute to its sum, and with none the sum is 0 |
| Resource.AccumulateNaN | src/resource.js:84-100 | adding one container's value gives NaN exactly when the sum so far was NaN or the value reads as NaN |
| Resource.TotalNaNWhen | src/resource.js:74-105 | a sum is NaN exactly when some container declares a value that reads as NaN |
| Resource.NaNIsMilli | src/resource.js:120-122 | a value that reads as NaN is always a string ending in `m` |
| Resource.TotalNaN | src/resource.js:74-147 | a sum is NaN exactly when some container declares a value that reads as NaN, and such a value is a string ending in `m` |
| Resource.RequestUnits | src/resource.js:84-147 | a CPU request `<digits>m` counts a thousandth of the digits, and a memory request `<digits><unit>` the digits times 1024 to the unit's power |
| Resource.AnalysisLaws | src/resource.js:59-111 | `totalPods` is the number of pods; each pod is counted once under its node, or `Unknown`, so the counts sum to the number of pods and no node appears twice; the CPU and memory request sums and the CPU and memory limit sums each run over every container of every pod |
| Resource.PodsAppend | src/resource.js:74-105 | the sums over a run of pods are the sums over its first part plus those over the rest |
| Resource.ReadContainer | src/resource.js:82-102 | the four conditional additions for one container add exactly its declared values |
| Resource.ReadPodContainers | src/resource.js:80-104 | the loop over one pod's containers extends the sums by exactly those containers |
| Resource.AnalyzeResourceUsage | src/resource.js:59-111 | the nested loops compute exactly the analysis function |
| Storage.CapacitySplit | src/storage.js:65-74 | every volume's capacity goes either to `used` or to `available`, so `total` is their sum |
| Storage.NothingBoundNothingUsed | src/storage.js:65-74 | when no volume is Bound nothing is used and everything is available |
| Storage.PvCapacityLaws | src/storage.js:66-126 | a volume whose capacity reads `<digits><unit>` adds the digits times 1024 to the unit's power; any other capacity text, or none, adds nothing |
| Storage.AnalysisLaws | src/storage.js:34-99 | the totals are the input lengths; every volume name lands once, in input order, under its status (default `Unknown`) and under its storage class (default `default`); claims and classes likewise under their phase and provisioner; no key appears twice; total capacity is used plus available |
| Storage.TallyVolumes | src/storage.js:52-75 | the volume loop computes exactly the two groupings and the three capacity sums |
| Storage.AnalyzeStorageConfig | src/storage.js:34-99 | the three loops compute exactly the analysis function |
| Js.SplitLaws | src/logs.js:33 | splitting yields one more piece than there are separators, no piece holds the separator, and joining the pieces gives the input back |
| Js.Prepend | src/audit.js:107-111 | putting an item at the head of a capped list keeps at most the cap and the earlier items in order behind it |
| Js.ApplyLimit | src/audit.js:149-151 | a positive limit keeps that many leading items (or all there are), an absent limit keeps everything, and a negative limit drops that many from the end |
| Js.FilterFuse | src/alerts.js:470-480 | two successive filters are one filter by their conjunction |
| Js.FilterLaws | src/alerts.js:470-480 | `filter` keeps as many elements as satisfy the predicate, each satisfying it, every one of them, in input order |
| Js.FilterLimitLaws | src/audit.js:125-151 | `filter` then `if (limit) slice(0, limit)` gives all matches without a limit, exactly the first `limit` matches in order with a positive one (every match among them included), and all but the last `-limit` with a negative one |
| Js.FilterPrefix | src/audit.js:125-147 | filtering a prefix of a list gives a prefix of filtering the list |
| Js.CountByLaws | src/events.js:67-76 | counting by key makes the counts sum to the number of items, each key count exactly its items, and no key appear twice |
| Js.GroupByLaws | src/storage.js:53-63 | grouping by key puts every item in exactly the list of its key, in input order, with no key twice |
| Js.GroupByAppend | src/rbac.js:76-128 | two passes into the same dictionary are one pass over the concatenation |
| Js.OrDefault | src/events.js:71-75 | `o \|\| d` on a string field falls back both when the field is missing and when it is empty |
| Js.CompareNumbers | src/alerts.js:284-295 | on two numbers the four JavaScript comparisons are the integer ones |
| Js.UnorderedWithUndefined | src/alerts.js:284-295 | nothing compares with undefined or NaN |
| Js.DigitsOfNatToString | src/automation.js:451 | reading back the decimal text of a count gives the count |

## Left out

- Persistence: every `load*`/`save*` reads or writes a file and swallows errors. The stores start from their defaults, and saving is not modelled.
- The web UI, the terminal console, the CLI, HTTP routing, command formatting, the AI client, kubeconfig handling and backup files are outside the core. Only the Kubernetes client's results are modelled, as listings that succeed or fail and a per-call success predicate.
- Cron: a scheduled task is recorded as `Task(schedule)` in the per-id task table. Firing times and cron-expression validation are not modelled.
- Child processes: how a custom script ends is a `ProcessEnd` parameter. The timeout race, killing the process and its environment variables are not modelled.
- Concurrency: overlapping scheduled and manual runs, and async interleaving in general, are not modelled. Each operation runs to completion.
- Console logging is not modelled. Alert dispatch yields the notices it would send.
- Error stacks keep only the first line (`Error: <message>`). Stack frames are not modelled.
- `backup-configmaps`: the file write is not modelled, only the listing and the result message.
- `cleanup-old-images`, `rotate-logs`: these are stubs in the source. Only their result text is modelled.
- Array-valued default parameters of the builtin scripts are not modelled. Parameter values are `JsVal` scalars.
- Fractional numbers: `JsVal` numbers are integers plus NaN. The quantity parsers use exact reals, and percentages and ratios are compared as exact rationals instead of floats.
- Audit.ComplianceScore: `Math.round` of a floating-point ratio is modelled as exact round-half-up on rationals.
- Quantity: `parseFloat` is modelled for a sign, digits and one decimal point. Exponents, `Infinity` and leading whitespace are not modelled, and neither is precision loss on very long digit strings.
- Lower-casing affects ASCII letters only. Unicode case mapping is not modelled.
- `getAuditStatistics` is outside this model. Its `recent24h`/`recent7d` counters, like those of the other statistics, depend on the clock. Its by-type, severity, category and user counts do not, but they are not modelled either.
- `generateComplianceReport` depends on cluster calls and is not modelled.
- `checkNetworkSecurity` is not modelled. It pushes its findings after it has already returned.
- `createTenant`'s cluster calls become one `provision` failure parameter, plus a pure plan of the namespaces, quota, role and network policy it would create. Per-call failures and `deleteTenantResources` are not modelled.
- `getTenantUsage`, and the `parseResource`/`parseMemory` of src/multitenancy.js, are float arithmetic over cluster metrics and are not modelled.
- `getClusterResourceUsage`, `monitorEvents` (a timer), `getNetworkTrafficAnalysis` (a constant), `streamPodLogs` and `getPodLogs` are not modelled.
- `analyzePodLogs`: the regex extractions are not modelled beyond whether the database-query and API-call patterns match, which decides whether the call throws. The extracted database queries, API calls, timestamps, HTTP statuses, IPs, URLs, time distribution and response-time statistics are not modelled. The slow-request count enters as a parameter.
- `searchLogs` with `regex: true` is not modelled. Plain-text search is.
- `filterLogs`: the `startTime`/`endTime` filters are accepted and proved to make no difference, as in the source, which never reads them.
- Events: event times are milliseconds. How invalid dates sort is not modelled.
- `getActiveAlerts` returns the active alerts as a set. The Map's insertion order is not modelled.
- Rbac, Network, Resource: a ClusterRoleBinding without subjects makes `analyzeRBAC` fail (`Rbac.AnalysisFails`, `Rbac.AnalyzeRbac`) and the audit RBAC check fail, as in the source. The other crash paths (a missing `spec`, a missing list) are not modelled. Resource reads `pod.spec` as always present.
- Tenancy.ProvisionPlan: the `CreateRole` step stands for both calls of `createTenantRBAC`, the Role and its RoleBinding `<id>-binding` to the namespace's `default` service account. The binding is not a separate step.
- Line lengths in `getLogStats` count characters. JavaScript counts UTF-16 code units, which differ for characters outside the Basic Multilingual Plane.
- Dict: objects used as dictionaries keep insertion order. JavaScript lists integer-like keys first, in ascending order, so the model's key order differs for such keys.
- Js.GroupBy, Js.CountBy: every key starts absent. In JavaScript an object literal inherits keys such as `constructor` and `toString` from `Object.prototype`. A group key of that name makes `if (!obj[k]) obj[k] = []; obj[k].push(...)` throw, and makes `(obj[k] || 0) + 1` a string. A namespace, node or StorageClass named `constructor` would do this in `analyzeRBAC`, `analyzeNetworkConfig`, `analyzeStorageConfig`, `analyzeEvents`, `analyzeResourceUsage` and `getTenantStatistics`. The model does not capture this.
- Audit.Finding: a finding keeps its category, severity and resource. Its title, description and recommendation texts are not modelled. The two wildcard findings of one ClusterRole rule are therefore equal in the model. They are counted separately (`Audit.RoleFindingsCount`).
- NewAuditLog: the `resource` and `details` objects of an audit record (each `{}` when absent) are not modelled.
- Resource: a resource value that is truthy but not a string reads as 0.

## Findings

| source | as written | input that shows it | evidently intended | confidence | as-written member | corrected member |
|---|---|---|---|---|---|---|
| src/logs.js:117-133 | the database-query and API-call regexes use only non-capturing groups, yet `match[1].toUpperCase()` is read, so a matching line throws a TypeError and the whole analysis fails | the log `INSERT INTO users` or `GET https://example.com` | the matched verb or method is recorded and the analysis completes | high, not executed | Logs.InsertIntoFails | Logs.AnalysisLaws |
