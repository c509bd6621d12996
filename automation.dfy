/** The automation registry: script CRUD, the per-id table of scheduled tasks, the
    executor with its capped, newest-first run history, and the builtin remediation
    handlers. The cluster client, the cron library and child processes are data handed
    in (`Env`); the clock and id generator are parameters. */
module Automation {
  import opened Js
  import opened Cluster

  /** `scriptHistory` keeps at most this many executions. */
  const HistoryCap: nat := 1000

  const DayMillis: int := 24 * 60 * 60 * 1000

  // ------------------------------------------------------------------------
  // Scripts
  // ------------------------------------------------------------------------

  /** Script parameters: a plain object of scalar values. */
  type Params = map<string, JsVal>

  /** `parameters[key]`, undefined when absent. */
  function Param(params: Params, key: string): JsVal {
    if key in params then params[key] else Undefined
  }

  datatype Script = Script(id: string, name: string, description: string, enabled: bool, kind: string,
                           script: string, schedule: string, timeout: int, parameters: Params,
                           createdAt: int, updatedAt: int)

  /** The object handed to `addAutomationScript`; `None` is a missing property. */
  datatype ScriptInput = ScriptInput(id: Option<string>, name: string, description: Option<string>,
                                     enabled: Option<bool>, kind: Option<string>, script: string,
                                     schedule: Option<string>, timeout: Option<int>, parameters: Option<Params>)

  /** The `updates` of `updateAutomationScript`; `None` is a property it does not set. */
  datatype ScriptPatch = ScriptPatch(id: Option<string>, name: Option<string>, description: Option<string>,
                                     enabled: Option<bool>, kind: Option<string>, script: Option<string>,
                                     schedule: Option<string>, timeout: Option<int>, parameters: Option<Params>,
                                     createdAt: Option<int>)

  function ScriptId(s: Script): string { s.id }

  /** `script.enabled && script.schedule`: the condition for having a cron task. */
  predicate Schedulable(s: Script) { s.enabled && s.schedule != "" }

  /** `addAutomationScript`'s defaults. */
  function NewScript(input: ScriptInput, freshId: string, now: int): (s: Script)
    ensures input.id.Some? && input.id.value != "" ==> s.id == input.id.value
    ensures input.id.None? || input.id.value == "" ==> s.id == freshId
    ensures s.name == input.name && s.script == input.script
    ensures input.description.Some? ==> s.description == input.description.value
    ensures input.description.None? ==> s.description == ""
    ensures s.enabled <==> input.enabled != Some(false)
    ensures input.kind.Some? && input.kind.value != "" ==> s.kind == input.kind.value
    ensures input.kind.None? || input.kind.value == "" ==> s.kind == "custom"
    ensures input.schedule.Some? ==> s.schedule == input.schedule.value
    ensures input.schedule.None? ==> s.schedule == ""
    ensures input.timeout.Some? && input.timeout.value != 0 ==> s.timeout == input.timeout.value
    ensures input.timeout.None? || input.timeout == Some(0) ==> s.timeout == 300
    ensures input.parameters.Some? ==> s.parameters == input.parameters.value
    ensures input.parameters.None? ==> s.parameters == map[]
    ensures s.createdAt == s.updatedAt == now
  {
    Script(OrDefault(input.id, freshId), input.name, OrDefault(input.description, ""),
           input.enabled != Some(false), OrDefault(input.kind, "custom"), input.script,
           OrDefault(input.schedule, ""),
           if input.timeout.None? || input.timeout.value == 0 then 300 else input.timeout.value,
           input.parameters.GetOr(map[]), now, now)
  }

  /** `{...script, ...updates, id: scriptId, updatedAt: now}` */
  function PatchScript(s: Script, p: ScriptPatch, scriptId: string, now: int): Script {
    Script(scriptId, p.name.GetOr(s.name), p.description.GetOr(s.description), p.enabled.GetOr(s.enabled),
           p.kind.GetOr(s.kind), p.script.GetOr(s.script), p.schedule.GetOr(s.schedule),
           p.timeout.GetOr(s.timeout), p.parameters.GetOr(s.parameters), p.createdAt.GetOr(s.createdAt), now)
  }

  /** A cron task; it runs the script with the id it is filed under, on this schedule. */
  datatype Task = Task(schedule: string)

  /** Executions recorded by `executeScript`. */
  datatype Execution = Execution(id: string, scriptId: string, scriptName: string, trigger: string,
                                 parameters: Params, status: string, output: string, error: Option<string>,
                                 startTime: int, endTime: int, duration: int)

  datatype AutomationState = AutomationState(scripts: seq<Script>, history: seq<Execution>, tasks: map<string, Task>)

  /** Every task belongs to a script with that id which is enabled, has a schedule, and
      whose schedule the task runs. */
  ghost predicate TasksSound(st: AutomationState) {
    forall k :: k in st.tasks ==> exists i :: 0 <= i < |st.scripts| && TaskOf(st, k, i)
  }

  ghost predicate TaskOf(st: AutomationState, k: string, i: int)
    requires k in st.tasks && 0 <= i < |st.scripts|
  {
    st.scripts[i].id == k && Schedulable(st.scripts[i]) && st.scripts[i].schedule == st.tasks[k].schedule
  }

  lemma SoundWithAnyHistory(st: AutomationState, h: seq<Execution>)
    requires TasksSound(st)
    ensures TasksSound(st.(history := h))
  {
    forall k | k in st.tasks ensures exists i :: 0 <= i < |st.scripts| && TaskOf(st.(history := h), k, i) {
      var i :| 0 <= i < |st.scripts| && TaskOf(st, k, i);
      assert TaskOf(st.(history := h), k, i);
    }
  }

  predicate DistinctIds(scripts: seq<Script>) {
    forall i, j :: 0 <= i < j < |scripts| ==> scripts[i].id != scripts[j].id
  }

  /** `scheduleScript(script)`: a no-op when the id already has a task. */
  function Schedule(tasks: map<string, Task>, s: Script): (r: map<string, Task>)
    ensures s.id in r && tasks.Keys <= r.Keys
  {
    if s.id in tasks then tasks else tasks[s.id := Task(s.schedule)]
  }

  /** `unscheduleScript(scriptId)` */
  function Unschedule(tasks: map<string, Task>, scriptId: string): (r: map<string, Task>)
    ensures scriptId !in r
  {
    tasks - {scriptId}
  }

  /** Scheduling is idempotent, and unscheduling removes exactly the one entry. */
  lemma ScheduleLaws(tasks: map<string, Task>, s: Script, k: string)
    ensures Schedule(Schedule(tasks, s), s) == Schedule(tasks, s)
    ensures s.id in tasks ==> Schedule(tasks, s) == tasks
    ensures s.id !in tasks ==> Schedule(tasks, s)[s.id] == Task(s.schedule)
    ensures k != s.id ==> (k in Schedule(tasks, s) <==> k in tasks)
    ensures k in Unschedule(tasks, s.id) <==> k in tasks && k != s.id
  {
  }

  /** `addAutomationScript(script)` */
  function ScriptAddition(st: AutomationState, input: ScriptInput, freshId: string, now: int): AutomationState {
    var s := NewScript(input, freshId, now);
    AutomationState(st.scripts + [s], st.history, if Schedulable(s) then Schedule(st.tasks, s) else st.tasks)
  }

  /** `updateAutomationScript(scriptId, updates)`: the state afterwards and the new script. */
  function ScriptUpdate(st: AutomationState, scriptId: string, p: ScriptPatch, now: int): Result<(AutomationState, Script)> {
    var i := IndexOf(st.scripts, ScriptId, scriptId);
    if i < 0 then Fail(NotFound("Automation script not found: " + scriptId))
    else
      var prev := st.scripts[i];
      var s := PatchScript(prev, p, scriptId, now);
      Ok((AutomationState(st.scripts[i := s], st.history, Refile(st.tasks, prev, s)), s))
  }

  /** `deleteAutomationScript(scriptId)`: the state afterwards and the removed script. */
  function ScriptRemoval(st: AutomationState, scriptId: string): Result<(AutomationState, Script)> {
    var i := IndexOf(st.scripts, ScriptId, scriptId);
    if i < 0 then Fail(NotFound("Automation script not found: " + scriptId))
    else Ok((AutomationState(st.scripts[..i] + st.scripts[i + 1..], st.history, Unschedule(st.tasks, scriptId)),
             st.scripts[i]))
  }

  /** `startAllScheduledTasks()` over the scripts `ss`, in order. */
  function ScheduleAll(tasks: map<string, Task>, ss: seq<Script>): (r: map<string, Task>)
    ensures tasks.Keys <= r.Keys
    decreases |ss|
  {
    if |ss| == 0 then tasks
    else
      var t := ScheduleAll(tasks, ss[..|ss| - 1]);
      if Schedulable(ss[|ss| - 1]) then Schedule(t, ss[|ss| - 1]) else t
  }

  /** `startAllScheduledTasks` gives a task to the ids of exactly the enabled scripts
      with a schedule, on top of the tasks already there. */
  lemma {:induction false} ScheduleAllKeys(tasks: map<string, Task>, ss: seq<Script>)
    ensures ScheduleAll(tasks, ss).Keys == tasks.Keys + set i | 0 <= i < |ss| && Schedulable(ss[i]) :: ss[i].id
    decreases |ss|
  {
    if |ss| > 0 {
      var front := ss[..|ss| - 1];
      ScheduleAllKeys(tasks, front);
      var ids := set i | 0 <= i < |ss| && Schedulable(ss[i]) :: ss[i].id;
      var ids0 := set i | 0 <= i < |front| && Schedulable(front[i]) :: front[i].id;
      assert ids == ids0 + (if Schedulable(ss[|ss| - 1]) then {ss[|ss| - 1].id} else {}) by {
        forall k | k in ids ensures k in ids0 || (Schedulable(ss[|ss| - 1]) && k == ss[|ss| - 1].id) {
          var i :| 0 <= i < |ss| && Schedulable(ss[i]) && ss[i].id == k;
          if i < |ss| - 1 { assert front[i] == ss[i]; }
        }
        forall k | k in ids0 ensures k in ids {
          var i :| 0 <= i < |front| && Schedulable(front[i]) && front[i].id == k;
          assert ss[i] == front[i];
        }
      }
    }
  }

  /** Adding a script keeps every task sound, and when no task is filed under the new id
      a task exists for it afterwards exactly when it is enabled with a schedule. */
  lemma AddScriptLaws(st: AutomationState, input: ScriptInput, freshId: string, now: int)
    requires TasksSound(st)
    ensures TasksSound(ScriptAddition(st, input, freshId, now))
    ensures var s := NewScript(input, freshId, now);
      s.id !in st.tasks ==>
        (s.id in ScriptAddition(st, input, freshId, now).tasks <==> Schedulable(s)) &&
        (Schedulable(s) ==> ScriptAddition(st, input, freshId, now).tasks[s.id] == Task(s.schedule))
    ensures ScriptAddition(st, input, freshId, now).scripts == st.scripts + [NewScript(input, freshId, now)]
  {
    var st' := ScriptAddition(st, input, freshId, now);
    var n := |st.scripts|;
    forall k | k in st'.tasks ensures exists i :: 0 <= i < |st'.scripts| && TaskOf(st', k, i) {
      if k in st.tasks && st'.tasks[k] == st.tasks[k] {
        var i :| 0 <= i < |st.scripts| && TaskOf(st, k, i);
        assert TaskOf(st', k, i);
      } else {
        assert TaskOf(st', k, n);
      }
    }
  }

  /** An update fails exactly on an unknown id. */
  lemma UpdateScriptFails(st: AutomationState, scriptId: string, p: ScriptPatch, now: int)
    ensures ScriptUpdate(st, scriptId, p, now).Fail? <==> forall j :: 0 <= j < |st.scripts| ==> st.scripts[j].id != scriptId
  {
    var i := IndexOf(st.scripts, ScriptId, scriptId);
    assert ScriptUpdate(st, scriptId, p, now).Fail? <==> i < 0;
  }

  /** Replacing the script at `i` by `s` with the same id, and refiling the task under
      that id either by `s` or, when the old script had no task of its own, leaving it as
      it was, keeps every task sound. */
  lemma UpdateKeepsTasksSound(st: AutomationState, i: nat, s: Script, tasks: map<string, Task>)
    requires TasksSound(st) && i < |st.scripts| && s.id == st.scripts[i].id
    requires forall k :: k != s.id ==> (k in tasks <==> k in st.tasks) && (k in tasks ==> tasks[k] == st.tasks[k])
    requires s.id in tasks ==> (Schedulable(s) && tasks[s.id] == Task(s.schedule)) ||
                               (!Schedulable(st.scripts[i]) && s.id in st.tasks && tasks[s.id] == st.tasks[s.id])
    ensures TasksSound(AutomationState(st.scripts[i := s], st.history, tasks))
  {
    var st' := AutomationState(st.scripts[i := s], st.history, tasks);
    forall k | k in st'.tasks ensures exists j :: 0 <= j < |st'.scripts| && TaskOf(st', k, j) {
      if k == s.id && Schedulable(s) && tasks[s.id] == Task(s.schedule) {
        assert TaskOf(st', k, i);
      } else {
        var j :| 0 <= j < |st.scripts| && TaskOf(st, k, j);
        assert j != i;
        assert TaskOf(st', k, j);
      }
    }
  }

  /** The task under `scriptId` after a successful update is the merged script's exactly
      when the id had no task before or the old script had a schedule (its task is then
      dropped first). With distinct ids one of the two always holds, because a task under
      the id can only belong to the old script. */
  predicate Refiled(st': AutomationState, scriptId: string, s: Script) {
    (scriptId in st'.tasks <==> Schedulable(s)) && (Schedulable(s) ==> st'.tasks[scriptId] == Task(s.schedule))
  }

  /** The task table `updateAutomationScript` leaves: the old script's task is dropped
      when it had a schedule, and the merged script `s` is scheduled when it is enabled
      with a schedule. */
  function Refile(tasks: map<string, Task>, prev: Script, s: Script): map<string, Task> {
    var t1 := if prev.schedule != "" then Unschedule(tasks, s.id) else tasks;
    if Schedulable(s) then Schedule(t1, s) else t1
  }

  /** Refiling touches only the id's entry, refiles it by `s` when the old script had a
      schedule or the id had no task, and otherwise leaves the old entry. */
  lemma RefileLaws(tasks: map<string, Task>, prev: Script, s: Script)
    ensures forall k :: k != s.id ==> (k in Refile(tasks, prev, s) <==> k in tasks) &&
                                      (k in tasks ==> Refile(tasks, prev, s)[k] == tasks[k])
    ensures prev.schedule != "" || s.id !in tasks ==>
      (s.id in Refile(tasks, prev, s) <==> Schedulable(s)) &&
      (Schedulable(s) ==> Refile(tasks, prev, s)[s.id] == Task(s.schedule))
    ensures prev.schedule == "" && s.id in tasks ==>
      s.id in Refile(tasks, prev, s) && Refile(tasks, prev, s)[s.id] == tasks[s.id]
  {
  }

  /** `s` is `{...prev, ...p, id: scriptId, updatedAt: now}`: every property the updates
      set wins, every other one keeps the old script's value. */
  predicate Merged(s: Script, prev: Script, p: ScriptPatch, scriptId: string, now: int) {
    s.id == scriptId && s.updatedAt == now &&
    s.name == p.name.GetOr(prev.name) && s.description == p.description.GetOr(prev.description) &&
    s.enabled == p.enabled.GetOr(prev.enabled) && s.kind == p.kind.GetOr(prev.kind) &&
    s.script == p.script.GetOr(prev.script) && s.schedule == p.schedule.GetOr(prev.schedule) &&
    s.timeout == p.timeout.GetOr(prev.timeout) && s.parameters == p.parameters.GetOr(prev.parameters) &&
    s.createdAt == p.createdAt.GetOr(prev.createdAt)
  }

  /** A successful update rewrites the first script with the id in place, keeps the id,
      keeps the tasks sound and distinct ids distinct; no other id gains or loses a task,
      and the id's task is refiled by the merged script whenever the old script had a
      schedule, no task was filed under the id, or the ids are distinct. */
  lemma UpdateScriptSucceeds(st: AutomationState, scriptId: string, p: ScriptPatch, now: int)
    requires TasksSound(st)
    ensures ScriptUpdate(st, scriptId, p, now).Ok? ==>
      var (st', s) := ScriptUpdate(st, scriptId, p, now).value;
      var i := IndexOf(st.scripts, ScriptId, scriptId);
      Merged(s, st.scripts[i], p, scriptId, now) &&
      st'.scripts == st.scripts[i := s] && st'.history == st.history && TasksSound(st') &&
      (DistinctIds(st.scripts) ==> DistinctIds(st'.scripts)) &&
      (st.scripts[i].schedule != "" || scriptId !in st.tasks || DistinctIds(st.scripts) ==> Refiled(st', scriptId, s)) &&
      (forall k :: k != scriptId ==> (k in st'.tasks <==> k in st.tasks) && (k in st.tasks ==> st'.tasks[k] == st.tasks[k]))
  {
    var i := IndexOf(st.scripts, ScriptId, scriptId);
    if i >= 0 {
      var prev := st.scripts[i];
      var s := PatchScript(prev, p, scriptId, now);
      var t2 := Refile(st.tasks, prev, s);
      var st' := AutomationState(st.scripts[i := s], st.history, t2);
      assert ScriptUpdate(st, scriptId, p, now).value == (st', s);
      assert Merged(s, prev, p, scriptId, now);
      RefileLaws(st.tasks, prev, s);
      // With distinct ids a task under the id is the old script's own.
      if DistinctIds(st.scripts) && scriptId in st.tasks {
        var j :| 0 <= j < |st.scripts| && TaskOf(st, scriptId, j);
        assert j == i;
      }
      UpdateKeepsTasksSound(st, i, s, t2);
      SameIdKeepsDistinct(st.scripts, i, s);
    }
  }

  /** Rewriting a script without changing its id keeps distinct ids distinct. */
  lemma SameIdKeepsDistinct(scripts: seq<Script>, i: nat, s: Script)
    requires i < |scripts| && s.id == scripts[i].id
    ensures DistinctIds(scripts) ==> DistinctIds(scripts[i := s])
  {
    assert forall j :: 0 <= j < |scripts| ==> scripts[i := s][j].id == scripts[j].id;
  }

  /** Ids are the caller's to choose, so two scripts can share one. Updating then rewrites
      the first; when that one has no schedule, the task the second one filed under the
      id stays, although the merged script is not enabled with a schedule. */
  lemma UpdateKeepsTwinTask()
    ensures var a := Script("x", "a", "", true, "custom", "", "", 300, map[], 0, 0);
      var b := a.(schedule := "* * * * *");
      var st := AutomationState([a, b], [], map["x" := Task(b.schedule)]);
      var p := ScriptPatch(None, None, None, None, None, None, None, None, None, None);
      TasksSound(st) && ScriptUpdate(st, "x", p, 1).Ok? &&
      var (st', s) := ScriptUpdate(st, "x", p, 1).value;
      !Schedulable(s) && "x" in st'.tasks && TasksSound(st')
  {
    var a := Script("x", "a", "", true, "custom", "", "", 300, map[], 0, 0);
    var b := a.(schedule := "* * * * *");
    var st := AutomationState([a, b], [], map["x" := Task(b.schedule)]);
    var p := ScriptPatch(None, None, None, None, None, None, None, None, None, None);
    assert TaskOf(st, "x", 1);
    assert IndexOf(st.scripts, ScriptId, "x") == 0;
    UpdateScriptSucceeds(st, "x", p, 1);
  }

  /** An update fails exactly on an unknown id; a successful one merges the updates into
      the first script with the id, keeps the history and the tasks sound, and refiles
      the id's task as `UpdateScriptSucceeds` states. */
  lemma UpdateScriptLaws(st: AutomationState, scriptId: string, p: ScriptPatch, now: int)
    requires TasksSound(st)
    ensures ScriptUpdate(st, scriptId, p, now).Fail? <==> forall j :: 0 <= j < |st.scripts| ==> st.scripts[j].id != scriptId
    ensures ScriptUpdate(st, scriptId, p, now).Ok? ==>
      var (st', s) := ScriptUpdate(st, scriptId, p, now).value;
      var i := IndexOf(st.scripts, ScriptId, scriptId);
      Merged(s, st.scripts[i], p, scriptId, now) &&
      st'.scripts == st.scripts[i := s] && st'.history == st.history && TasksSound(st') &&
      (DistinctIds(st.scripts) ==> DistinctIds(st'.scripts)) &&
      (st.scripts[i].schedule != "" || scriptId !in st.tasks || DistinctIds(st.scripts) ==> Refiled(st', scriptId, s)) &&
      (forall k :: k != scriptId ==> (k in st'.tasks <==> k in st.tasks) && (k in st.tasks ==> st'.tasks[k] == st.tasks[k]))
  {
    UpdateScriptFails(st, scriptId, p, now);
    UpdateScriptSucceeds(st, scriptId, p, now);
  }

  /** Removing the script at `i` together with the task under its id keeps every
      remaining task sound. */
  lemma RemovalKeepsTasksSound(st: AutomationState, i: nat)
    requires TasksSound(st) && i < |st.scripts|
    ensures TasksSound(AutomationState(st.scripts[..i] + st.scripts[i + 1..], st.history,
                                       Unschedule(st.tasks, st.scripts[i].id)))
  {
    var scriptId := st.scripts[i].id;
    var st' := AutomationState(st.scripts[..i] + st.scripts[i + 1..], st.history, Unschedule(st.tasks, scriptId));
    forall k | k in st'.tasks ensures exists j :: 0 <= j < |st'.scripts| && TaskOf(st', k, j) {
      var j :| 0 <= j < |st.scripts| && TaskOf(st, k, j);
      assert j != i;
      if j < i {
        assert st'.scripts[j] == st.scripts[j];
        assert TaskOf(st', k, j);
      } else {
        assert st'.scripts[j - 1] == st.scripts[j];
        assert TaskOf(st', k, j - 1);
      }
    }
  }

  /** A delete fails exactly on an unknown id. */
  lemma DeleteScriptFails(st: AutomationState, scriptId: string)
    ensures ScriptRemoval(st, scriptId).Fail? <==> forall j :: 0 <= j < |st.scripts| ==> st.scripts[j].id != scriptId
  {
    var i := IndexOf(st.scripts, ScriptId, scriptId);
    assert ScriptRemoval(st, scriptId).Fail? <==> i < 0;
  }

  /** A successful delete removes the first script with the id and the task under it,
      keeps the other scripts in order, the other tasks, the tasks sound and the history
      as it was. */
  lemma DeleteScriptSucceeds(st: AutomationState, scriptId: string)
    requires TasksSound(st)
    ensures ScriptRemoval(st, scriptId).Ok? ==>
      var (st', s) := ScriptRemoval(st, scriptId).value;
      var i := IndexOf(st.scripts, ScriptId, scriptId);
      0 <= i && s == st.scripts[i] && s.id == scriptId &&
      st'.scripts == st.scripts[..i] + st.scripts[i + 1..] && |st'.scripts| == |st.scripts| - 1 &&
      scriptId !in st'.tasks && TasksSound(st') && st'.history == st.history &&
      (forall k :: k != scriptId ==> (k in st'.tasks <==> k in st.tasks) && (k in st.tasks ==> st'.tasks[k] == st.tasks[k]))
  {
    var i := IndexOf(st.scripts, ScriptId, scriptId);
    if i >= 0 {
      assert ScriptId(st.scripts[i]) == scriptId;
      RemovalKeepsTasksSound(st, i);
      var rest := st.scripts[..i] + st.scripts[i + 1..];
      var t := Unschedule(st.tasks, scriptId);
      assert ScriptRemoval(st, scriptId) == Ok((AutomationState(rest, st.history, t), st.scripts[i]));
      assert |rest| == |st.scripts| - 1;
      forall k | k != scriptId
        ensures (k in t <==> k in st.tasks) && (k in st.tasks ==> t[k] == st.tasks[k])
      {
      }
    }
  }

  /** A delete fails exactly on an unknown id; otherwise the first script with the id and
      its task are gone, the tasks stay sound and the other scripts keep their order. */
  lemma DeleteScriptLaws(st: AutomationState, scriptId: string)
    requires TasksSound(st)
    ensures ScriptRemoval(st, scriptId).Fail? <==> forall j :: 0 <= j < |st.scripts| ==> st.scripts[j].id != scriptId
    ensures ScriptRemoval(st, scriptId).Ok? ==>
      var (st', s) := ScriptRemoval(st, scriptId).value;
      var i := IndexOf(st.scripts, ScriptId, scriptId);
      0 <= i && s == st.scripts[i] && s.id == scriptId &&
      st'.scripts == st.scripts[..i] + st.scripts[i + 1..] && |st'.scripts| == |st.scripts| - 1 &&
      scriptId !in st'.tasks && TasksSound(st') && st'.history == st.history &&
      (forall k :: k != scriptId ==> (k in st'.tasks <==> k in st.tasks) && (k in st.tasks ==> st'.tasks[k] == st.tasks[k]))
  {
    DeleteScriptFails(st, scriptId);
    DeleteScriptSucceeds(st, scriptId);
  }

  /** After `startAllScheduledTasks` every enabled script with a schedule has a task, no
      other id gained one, and sound tasks stay sound. */
  lemma {:induction false} ScheduleAllLaws(st: AutomationState, n: nat)
    requires n <= |st.scripts| && TasksSound(st)
    ensures var t := ScheduleAll(st.tasks, st.scripts[..n]);
      TasksSound(st.(tasks := t)) &&
      (forall j :: 0 <= j < n && Schedulable(st.scripts[j]) ==> st.scripts[j].id in t) &&
      (forall k :: k in t && k !in st.tasks ==> exists j :: 0 <= j < n && st.scripts[j].id == k && Schedulable(st.scripts[j]))
    decreases n
  {
    if n > 0 {
      ScheduleAllLaws(st, n - 1);
      assert st.scripts[..n][..n - 1] == st.scripts[..n - 1];
      var t0 := ScheduleAll(st.tasks, st.scripts[..n - 1]);
      var t := ScheduleAll(st.tasks, st.scripts[..n]);
      var s := st.scripts[n - 1];
      forall k | k in t ensures exists j :: 0 <= j < |st.scripts| && TaskOf(st.(tasks := t), k, j) {
        if k in t0 && t[k] == t0[k] {
          var j :| 0 <= j < |st.scripts| && TaskOf(st.(tasks := t0), k, j);
          assert TaskOf(st.(tasks := t), k, j);
        } else {
          assert TaskOf(st.(tasks := t), k, n - 1);
        }
      }
    }
  }

  /** `getAutomationScripts({enabled, type})`; an empty type is no filter. */
  function ListScripts(scripts: seq<Script>, enabled: Option<bool>, kind: string): (r: seq<Script>)
    ensures forall x :: x in r <==> x in scripts && ScriptMatches(x, enabled, kind)
    ensures IsSubsequence(r, scripts) && |r| == Count(scripts, ScriptFilter(enabled, kind))
  {
    FilterLaws(scripts, ScriptFilter(enabled, kind));
    Filter(scripts, ScriptFilter(enabled, kind))
  }

  predicate ScriptMatches(x: Script, enabled: Option<bool>, kind: string) {
    (enabled.Some? ==> x.enabled == enabled.value) && (kind != "" ==> x.kind == kind)
  }

  /** The options of `getAutomationScripts` as one condition. */
  function ScriptFilter(enabled: Option<bool>, kind: string): Script -> bool {
    (x: Script) => ScriptMatches(x, enabled, kind)
  }

  // ------------------------------------------------------------------------
  // Default scripts
  // ------------------------------------------------------------------------

  function Builtin(id: string, enabled: bool, schedule: string, timeout: int, parameters: Params): Script {
    Script(id, id, "", enabled, "builtin", id, schedule, timeout, parameters, 0, 0)
  }

  /** `getDefaultAutomationScripts()`: names and descriptions are display text and left
      empty; array-valued parameters (`namespaces`, `nodes`, `deployments`) are omitted. */
  const DefaultScripts: seq<Script> := [
    Builtin("cleanup-evicted-pods", true, "0 */6 * * *", 300, map["dryRun" := Bool(false)]),
    Builtin("restart-crashing-pods", false, "*/5 * * * *", 300, map["restartThreshold" := Num(5)]),
    Builtin("scale-deployment", false, "*/2 * * * *", 300,
            map["cpuThreshold" := Num(80), "memoryThreshold" := Num(85), "maxReplicas" := Num(10)]),
    Builtin("cleanup-old-images", false, "0 2 * * *", 600, map["keepDays" := Num(7)]),
    Builtin("backup-configmaps", false, "0 3 * * *", 300, map["backupPath" := Str("/tmp/k8s-backup/configmaps")]),
    Builtin("check-node-health", true, "*/10 * * * *", 300,
            map["alertOnNotReady" := Bool(true), "alertOnPressure" := Bool(true)]),
    Builtin("rotate-logs", false, "0 4 * * *", 600, map["retentionDays" := Num(30)]),
    Builtin("update-image-tags", false, "", 300, map["newTag" := Str("latest")])
  ]

  /** Of the default scripts, only the first and the sixth are enabled with a schedule. */
  lemma DefaultSchedulable()
    ensures |DefaultScripts| == 8
    ensures DefaultScripts[0].id == "cleanup-evicted-pods" && DefaultScripts[5].id == "check-node-health"
    ensures forall i :: 0 <= i < |DefaultScripts| ==> (Schedulable(DefaultScripts[i]) <==> i == 0 || i == 5)
  {
    var d := DefaultScripts;
    assert Schedulable(d[0]) && Schedulable(d[5]);
    assert !Schedulable(d[1]) && !Schedulable(d[2]) && !Schedulable(d[3]) && !Schedulable(d[4]);
    assert !Schedulable(d[6]) && !Schedulable(d[7]);
  }

  /** When exactly the scripts at `a` and `b` are enabled with a schedule, starting all
      tasks from none files tasks under exactly their two ids. */
  lemma TwoScheduled(ss: seq<Script>, a: nat, b: nat)
    requires a < |ss| && b < |ss|
    requires forall i :: 0 <= i < |ss| ==> (Schedulable(ss[i]) <==> i == a || i == b)
    ensures ScheduleAll(map[], ss).Keys == {ss[a].id, ss[b].id}
  {
    ScheduleAllKeys(map[], ss);
    var ids := set i | 0 <= i < |ss| && Schedulable(ss[i]) :: ss[i].id;
    assert ss[a].id in ids && ss[b].id in ids;
    forall k | k in ids ensures k == ss[a].id || k == ss[b].id {
      var i :| 0 <= i < |ss| && Schedulable(ss[i]) && ss[i].id == k;
    }
  }

  /** Starting all tasks over the default scripts schedules exactly the evicted-pod cleanup
      and the node health check. */
  lemma DefaultSchedule()
    ensures ScheduleAll(map[], DefaultScripts).Keys == {"cleanup-evicted-pods", "check-node-health"}
  {
    DefaultSchedulable();
    TwoScheduled(DefaultScripts, 0, 5);
  }

  // ------------------------------------------------------------------------
  // The environment of a run
  // ------------------------------------------------------------------------

  /** A thrown error: its message and its `stack` text. */
  datatype Failure = Failure(message: string, stack: string)

  /** `new Error(message)`; the stack frames after the first line are not modelled. */
  function Thrown(message: string): Failure {
    Failure(message, "Error: " + message)
  }

  /** A list request to the cluster: the items, or the error it rejected with. */
  datatype Listing<T> = Listed(items: seq<T>) | ListFailed(failure: Failure)

  datatype Pod = Pod(name: string, namespace: string, phase: string, reason: string,
                     containerStatuses: Option<seq<ContainerStatus>>)

  datatype Node = Node(name: string, conditions: Option<seq<NodeCondition>>)

  /** A Deployment: `spec.replicas` (possibly missing) and its containers' `image`s
      (the empty string for a container without one). */
  datatype Deployment = Deployment(name: string, namespace: string, replicas: Option<int>, images: seq<string>)

  /** A write request a handler sends to the cluster. */
  datatype Call = DeletePod(name: string, namespace: string)
                | ScaleTo(name: string, namespace: string, replicas: int)
                | SetImages(name: string, namespace: string, images: seq<string>)

  /** How the child process of a custom script ended. */
  datatype ProcessEnd = Exited(code: Option<int>, stdout: string, stderr: string) | TimedOut | SpawnFailed(failure: Failure)

  /** Everything outside the process that a run observes. `callOk` says which write
      requests the cluster accepts. */
  datatype Env = Env(connect: Option<Failure>, pods: Listing<Pod>, nodes: Listing<Node>,
                     deployments: Listing<Deployment>, configMaps: Listing<string>,
                     callOk: Call -> bool, process: ProcessEnd)

  /** What a handler comes back with: its `output` and the write requests it issued, or
      the error it threw. */
  datatype Outcome = Completed(output: string, calls: seq<Call>) | Raised(failure: Failure)

  /** The targets of the calls the cluster accepted, in order. */
  function Accepted(calls: seq<Call>, ok: Call -> bool): seq<string>
    decreases |calls|
  {
    if |calls| == 0 then []
    else Accepted(calls[..|calls| - 1], ok) + (if ok(calls[|calls| - 1]) then [calls[|calls| - 1].name] else [])
  }

  /** Only accepted calls are reported, one name per accepted call. */
  lemma {:induction false} AcceptedLaws(calls: seq<Call>, ok: Call -> bool)
    ensures |Accepted(calls, ok)| == Count(calls, ok) <= |calls|
    ensures forall n :: n in Accepted(calls, ok) ==> exists c :: c in calls && ok(c) && c.name == n
    decreases |calls|
  {
    if |calls| > 0 {
      var front := calls[..|calls| - 1];
      AcceptedLaws(front, ok);
      forall n | n in Accepted(calls, ok) ensures exists c :: c in calls && ok(c) && c.name == n {
        if n in Accepted(front, ok) {
          var c :| c in front && ok(c) && c.name == n;
          assert c in calls;
        } else {
          assert calls[|calls| - 1] in calls;
        }
      }
    }
  }

  /** One call more: its name is reported when the cluster accepts it. */
  lemma AcceptedSnoc(calls: seq<Call>, c: Call, ok: Call -> bool)
    ensures Accepted(calls + [c], ok) == Accepted(calls, ok) + (if ok(c) then [c.name] else [])
  {
    assert (calls + [c])[..|calls|] == calls;
  }

  // ------------------------------------------------------------------------
  // Builtin handlers
  // ------------------------------------------------------------------------

  predicate IsEvicted(p: Pod) { p.phase == "Failed" && p.reason == "Evicted" }

  function DeleteCall(p: Pod): Call { DeletePod(p.name, p.namespace) }

  /** `cleanupEvictedPods(client, parameters)` over the listed pods. */
  function CleanupEvicted(pods: seq<Pod>, params: Params, ok: Call -> bool): Outcome {
    var evicted := Filter(pods, IsEvicted);
    if Truthy(Param(params, "dryRun")) then
      Completed("Dry run: Would delete " + NatToString(|evicted|) + " evicted pods", [])
    else
      var calls := Map(evicted, DeleteCall);
      Completed("Successfully deleted " + NatToString(|Accepted(calls, ok)|) + " evicted pods", calls)
  }

  /** The cleanup targets exactly the Failed/Evicted pods: a dry run sends nothing, and a
      real run sends one delete per evicted pod, in order, whether earlier deletes failed
      or not. */
  lemma CleanupEvictedLaws(pods: seq<Pod>, params: Params, ok: Call -> bool)
    ensures CleanupEvicted(pods, params, ok).Completed?
    ensures Truthy(Param(params, "dryRun")) ==> CleanupEvicted(pods, params, ok).calls == []
    ensures !Truthy(Param(params, "dryRun")) ==>
      var calls := CleanupEvicted(pods, params, ok).calls;
      (forall c :: c in calls ==> exists p :: p in pods && IsEvicted(p) && c == DeletePod(p.name, p.namespace)) &&
      (forall p :: p in pods && IsEvicted(p) ==> DeletePod(p.name, p.namespace) in calls)
  {
    var evicted := Filter(pods, IsEvicted);
    var calls := Map(evicted, DeleteCall);
    forall c | c in calls ensures exists p :: p in pods && IsEvicted(p) && c == DeletePod(p.name, p.namespace) {
      var k :| 0 <= k < |calls| && calls[k] == c;
      assert evicted[k] in evicted;
    }
    forall p | p in pods && IsEvicted(p) ensures DeletePod(p.name, p.namespace) in calls {
      var k :| 0 <= k < |evicted| && evicted[k] == p;
      assert calls[k] == DeletePod(p.name, p.namespace);
    }
  }

  /** The delete loop of `cleanupEvictedPods` / `restartCrashingPods`: one request per pod,
      collecting the names the cluster accepted. */
  method DeleteEach(targets: seq<Pod>, ok: Call -> bool) returns (calls: seq<Call>, deleted: seq<string>)
    ensures calls == Map(targets, DeleteCall)
    ensures deleted == Accepted(calls, ok)
  {
    calls, deleted := [], [];
    var i := 0;
    while i < |targets|
      invariant 0 <= i <= |targets|
      invariant calls == Map(targets[..i], DeleteCall)
      invariant deleted == Accepted(calls, ok)
    {
      var c := DeletePod(targets[i].name, targets[i].namespace);
      calls := calls + [c];
      if ok(c) {
        deleted := deleted + [c.name];
      }
      assert calls[..|calls| - 1] == Map(targets[..i], DeleteCall);
      i := i + 1;
    }
  }

  method CleanupEvictedPods(pods: seq<Pod>, params: Params, ok: Call -> bool) returns (outcome: Outcome)
    ensures outcome == CleanupEvicted(pods, params, ok)
  {
    var evicted := Filter(pods, IsEvicted);
    if Truthy(Param(params, "dryRun")) {
      return Completed("Dry run: Would delete " + NatToString(|evicted|) + " evicted pods", []);
    }
    var calls, deleted := DeleteEach(evicted, ok);
    outcome := Completed("Successfully deleted " + NatToString(|deleted|) + " evicted pods", calls);
  }

  /** A pod is crashing when its summed restarts reach `restartThreshold` (JS `>=`). */
  predicate IsCrashing(p: Pod, threshold: JsVal) {
    AtLeast(Num(TotalRestarts(p.containerStatuses)), threshold)
  }

  /** `restartCrashingPods(client, parameters)` over the listed pods. */
  function RestartCrashing(pods: seq<Pod>, params: Params, ok: Call -> bool): Outcome {
    var crashing := Filter(pods, (p: Pod) => IsCrashing(p, Param(params, "restartThreshold")));
    var calls := Map(crashing, DeleteCall);
    Completed("Successfully restarted " + NatToString(|Accepted(calls, ok)|) + " crashing pods", calls)
  }

  /** With a numeric threshold a pod is restarted iff its restart total reaches it; with no
      threshold at all nothing is restarted. */
  lemma CrashingLaws(p: Pod, t: int)
    ensures IsCrashing(p, Num(t)) <==> TotalRestarts(p.containerStatuses) >= t
    ensures !IsCrashing(p, Undefined)
  {
  }

  method RestartCrashingPods(pods: seq<Pod>, params: Params, ok: Call -> bool) returns (outcome: Outcome)
    ensures outcome == RestartCrashing(pods, params, ok)
  {
    var crashing := Filter(pods, (p: Pod) => IsCrashing(p, Param(params, "restartThreshold")));
    var calls, restarted := DeleteEach(crashing, ok);
    outcome := Completed("Successfully restarted " + NatToString(|restarted|) + " crashing pods", calls);
  }

  /** `deployment.spec.replicas || 1` */
  function CurrentReplicas(d: Deployment): (n: int)
    ensures d.replicas.None? || d.replicas == Some(0) ==> n == 1
    ensures d.replicas.Some? && d.replicas.value != 0 ==> n == d.replicas.value
  {
    if d.replicas.None? || d.replicas.value == 0 then 1 else d.replicas.value
  }

  /** The scale request for one deployment, or none when it is at `maxReplicas` already. */
  function ScaleCall(d: Deployment, maxReplicas: JsVal): seq<Call> {
    var current := CurrentReplicas(d);
    if AtLeast(Num(current), maxReplicas) then [] else [ScaleTo(d.name, d.namespace, current + 1)]
  }

  /** `scaleDeployment(client, parameters)` over the deployments of `default`. */
  function ScaleDeployments(deps: seq<Deployment>, params: Params, ok: Call -> bool): Outcome {
    var calls := FlatMap(deps, (d: Deployment) => ScaleCall(d, Param(params, "maxReplicas")));
    Completed("Successfully scaled " + NatToString(|Accepted(calls, ok)|) + " deployments", calls)
  }

  /** Scaling asks for one more replica than the current count (missing or 0 counting as 1)
      exactly when that count is below a numeric `maxReplicas`; without `maxReplicas` every
      deployment is scaled. */
  lemma ScaleCallLaws(d: Deployment, m: int)
    ensures |ScaleCall(d, Num(m))| == (if CurrentReplicas(d) < m then 1 else 0)
    ensures CurrentReplicas(d) < m ==> ScaleCall(d, Num(m)) == [ScaleTo(d.name, d.namespace, CurrentReplicas(d) + 1)]
    ensures ScaleCall(d, Undefined) == [ScaleTo(d.name, d.namespace, CurrentReplicas(d) + 1)]
    ensures d.replicas == Some(0) && m > 1 ==> ScaleCall(d, Num(m)) == [ScaleTo(d.name, d.namespace, 2)]
  {
  }

  method ScaleDeployment(deps: seq<Deployment>, params: Params, ok: Call -> bool) returns (outcome: Outcome)
    ensures outcome == ScaleDeployments(deps, params, ok)
  {
    var maxReplicas := Param(params, "maxReplicas");
    var calls: seq<Call> := [];
    var scaled: seq<string> := [];
    var i := 0;
    while i < |deps|
      invariant 0 <= i <= |deps|
      invariant calls == FlatMap(deps[..i], (d: Deployment) => ScaleCall(d, maxReplicas))
      invariant scaled == Accepted(calls, ok)
    {
      FlatMapSnoc(deps, i, (d: Deployment) => ScaleCall(d, maxReplicas));
      var d := deps[i];
      var current := CurrentReplicas(d);
      if !AtLeast(Num(current), maxReplicas) {
        var c := ScaleTo(d.name, d.namespace, current + 1);
        AcceptedSnoc(calls, c, ok);
        calls := calls + [c];
        if ok(c) {
          scaled := scaled + [c.name];
        }
      }
      i := i + 1;
    }
    TakeAll(deps);
    outcome := Completed("Successfully scaled " + NatToString(|scaled|) + " deployments", calls);
  }

  /** One issue of `checkNodeHealth`. */
  datatype Issue = NotReady(node: string) | UnderPressure(node: string, conditions: seq<NodeCondition>)

  predicate IsPressure(c: NodeCondition) { Includes(c.kind, "Pressure") && c.status == "True" }

  /** The issues one node raises; a node whose condition list is missing makes the handler
      throw, so it is only asked of nodes that have one. */
  function NodeIssues(n: Node, params: Params): seq<Issue>
    requires n.conditions.Some?
  {
    var conds := n.conditions.value;
    var ready := FindCondition(conds, "Ready");
    var notReady := !(ready.Some? && ready.value.status == "True") && Truthy(Param(params, "alertOnNotReady"));
    var pressure := Filter(conds, IsPressure);
    (if notReady then [NotReady(n.name)] else []) +
    (if |pressure| > 0 && Truthy(Param(params, "alertOnPressure")) then [UnderPressure(n.name, pressure)] else [])
  }

  predicate AllHaveConditions(nodes: seq<Node>) {
    forall i :: 0 <= i < |nodes| ==> nodes[i].conditions.Some?
  }

  function AllIssues(nodes: seq<Node>, params: Params): seq<Issue>
    requires AllHaveConditions(nodes)
    decreases |nodes|
  {
    if |nodes| == 0 then [] else AllIssues(nodes[..|nodes| - 1], params) + NodeIssues(nodes[|nodes| - 1], params)
  }

  /** The TypeError `pressureConditions.length` throws when `status.conditions` is missing. */
  const MissingConditions: Failure :=
    Failure("Cannot read properties of undefined (reading 'length')",
            "TypeError: Cannot read properties of undefined (reading 'length')")

  /** `checkNodeHealth(client, parameters)` over the listed nodes. */
  function CheckNodes(nodes: seq<Node>, params: Params): Outcome {
    if !AllHaveConditions(nodes) then Raised(MissingConditions)
    else Completed("Node health check complete. Found " + NatToString(|AllIssues(nodes, params)|) + " issues", [])
  }

  /** `healthyNodes`: node count minus issue count. */
  function HealthyNodes(nodes: seq<Node>, params: Params): int
    requires AllHaveConditions(nodes)
  {
    |nodes| - |AllIssues(nodes, params)|
  }

  /** A node raises at most two issues, so `healthyNodes` is at least minus the node count;
      a single node that is not ready and under pressure drives it to -1. */
  lemma {:induction false} HealthyNodesBound(nodes: seq<Node>, params: Params)
    requires AllHaveConditions(nodes)
    ensures |AllIssues(nodes, params)| <= 2 * |nodes|
    ensures HealthyNodes(nodes, params) >= -|nodes|
    decreases |nodes|
  {
    if |nodes| > 0 {
      HealthyNodesBound(nodes[..|nodes| - 1], params);
    }
  }

  lemma HealthyNodesCanBeNegative()
    ensures var n := Node("n1", Some([NodeCondition("Ready", "False"), NodeCondition("DiskPressure", "True")]));
      var params := map["alertOnNotReady" := Bool(true), "alertOnPressure" := Bool(true)];
      AllHaveConditions([n]) && HealthyNodes([n], params) == -1
  {
    var n := Node("n1", Some([NodeCondition("Ready", "False"), NodeCondition("DiskPressure", "True")]));
    var params := map["alertOnNotReady" := Bool(true), "alertOnPressure" := Bool(true)];
    var conds := n.conditions.value;
    assert FindCondition(conds, "Ready") == Some(conds[0]);
    DiskPressureIsPressure();
    FilterLaws(conds, IsPressure);
    assert |NodeIssues(n, params)| == 2;
    assert [n][..0] == [];
    assert |AllIssues([n], params)| == 2;
  }

  lemma DiskPressureIsPressure()
    ensures IsPressure(NodeCondition("DiskPressure", "True"))
  {
    assert OccursAt("DiskPressure", "Pressure", 4);
    IncludesAt("DiskPressure", "Pressure");
  }

  /** One more node with a condition list extends the issues by its own. */
  lemma NodesStep(nodes: seq<Node>, i: nat, params: Params)
    requires i < |nodes| && nodes[i].conditions.Some? && AllHaveConditions(nodes[..i])
    ensures AllHaveConditions(nodes[..i + 1])
    ensures AllIssues(nodes[..i + 1], params) == AllIssues(nodes[..i], params) + NodeIssues(nodes[i], params)
  {
    var prefix := nodes[..i + 1];
    assert prefix[..i] == nodes[..i];
  }

  method CheckNodeHealth(nodes: seq<Node>, params: Params) returns (outcome: Outcome, issues: seq<Issue>)
    ensures outcome == CheckNodes(nodes, params)
    ensures outcome.Completed? ==> AllHaveConditions(nodes) && issues == AllIssues(nodes, params)
  {
    issues := [];
    var i := 0;
    while i < |nodes|
      invariant 0 <= i <= |nodes|
      invariant AllHaveConditions(nodes[..i]) && issues == AllIssues(nodes[..i], params)
    {
      if nodes[i].conditions.None? {
        assert !AllHaveConditions(nodes) by { assert nodes[i].conditions.None?; }
        return Raised(MissingConditions), issues;
      }
      NodesStep(nodes, i, params);
      issues := issues + NodeIssues(nodes[i], params);
      i := i + 1;
    }
    TakeAll(nodes);
    outcome := Completed("Node health check complete. Found " + NatToString(|issues|) + " issues", []);
  }

  /** `updateImageTags`' rewrite of one `container.image`: an image containing `':'` keeps
      only the text before its first `':'` and gets the new tag. */
  function Retag(image: string, tag: string): (r: string)
    ensures ':' !in image ==> r == image
    ensures ':' in image ==> r == FirstPiece(image, ':') + ":" + tag
  {
    if image != "" && ':' in image then FirstPiece(image, ':') + ":" + tag else image
  }

  /** Retagging twice with a colon-free tag is retagging once. */
  lemma RetagIdempotent(image: string, tag: string)
    requires ':' !in tag
    ensures Retag(Retag(image, tag), tag) == Retag(image, tag)
  {
    if ':' in image {
      var base := FirstPiece(image, ':');
      var r := base + ":" + tag;
      assert r[|base|] == ':';
      FirstPieceOfAppend(base, tag);
    }
  }

  /** A registry port is lost along with the old tag: `host:port/repo:old` becomes
      `host:tag`. */
  lemma RetagDropsPort(host: string, port: string, repo: string, oldTag: string, tag: string)
    requires ':' !in host
    ensures Retag(host + ":" + port + "/" + repo + ":" + oldTag, tag) == host + ":" + tag
  {
    var rest := port + "/" + repo + ":" + oldTag;
    var image := host + ":" + port + "/" + repo + ":" + oldTag;
    assert image == host + ":" + rest;
    assert image[|host|] == ':';
    FirstPieceOfAppend(host, rest);
  }

  lemma {:induction false} FirstPieceOfAppend(base: string, tag: string)
    requires ':' !in base
    ensures FirstPiece(base + ":" + tag, ':') == base
    decreases |base|
  {
    if |base| > 0 {
      assert (base + ":" + tag)[1..] == base[1..] + ":" + tag;
      FirstPieceOfAppend(base[1..], tag);
    }
  }

  predicate HasTag(image: string) { image != "" && ':' in image }

  /** The patch for one deployment, when one of its images carries a tag. */
  function RetagCall(d: Deployment, tag: string): seq<Call> {
    if AnyTagged(d.images) then [SetImages(d.name, d.namespace, Map(d.images, RetagWith(tag)))]
    else []
  }

  /** `updateImageTags(client, parameters)` over the deployments of `default`. */
  function UpdateTags(deps: seq<Deployment>, params: Params, ok: Call -> bool): Outcome {
    var calls := FlatMap(deps, (d: Deployment) => RetagCall(d, ToStr(Param(params, "newTag"))));
    Completed("Successfully updated image tags for " + NatToString(|Accepted(calls, ok)|) + " deployments", calls)
  }

  /** Some image carries a tag. */
  predicate AnyTagged(images: seq<string>) {
    exists k :: 0 <= k < |images| && HasTag(images[k])
  }

  /** The inner loop's rewrite of each `container.image`. */
  function RetagWith(tag: string): string -> string {
    (im: string) => Retag(im, tag)
  }

  /** The rewritten images after one image more. */
  lemma RetagStep(images: seq<string>, k: nat, tag: string)
    requires k < |images|
    ensures Map(images[..k + 1], RetagWith(tag)) == Map(images[..k], RetagWith(tag)) + [Retag(images[k], tag)]
  {
    assert images[..k + 1] == images[..k] + [images[k]];
    MapSnoc(images[..k], images[k], RetagWith(tag));
  }

  /** Whether a tagged image was seen, after one image more. */
  lemma TaggedStep(images: seq<string>, k: nat)
    requires k < |images|
    ensures AnyTagged(images[..k + 1]) <==> AnyTagged(images[..k]) || HasTag(images[k])
  {
    var prefix := images[..k + 1];
    if AnyTagged(prefix) && !HasTag(images[k]) {
      var j :| 0 <= j < |prefix| && HasTag(prefix[j]);
      assert images[..k][j] == prefix[j];
    }
    if AnyTagged(images[..k]) {
      var j :| 0 <= j < k && HasTag(images[..k][j]);
      assert prefix[j] == images[..k][j];
    }
    if HasTag(images[k]) {
      assert prefix[k] == images[k];
    }
  }

  /** The inner loop over one deployment's containers: rewrites each image and reports
      whether any changed. */
  method RetagContainers(images: seq<string>, tag: string) returns (out: seq<string>, changed: bool)
    ensures out == Map(images, RetagWith(tag))
    ensures changed <==> AnyTagged(images)
  {
    out, changed := [], false;
    var k := 0;
    while k < |images|
      invariant 0 <= k <= |images|
      invariant out == Map(images[..k], RetagWith(tag))
      invariant changed <==> AnyTagged(images[..k])
    {
      RetagStep(images, k, tag);
      TaggedStep(images, k);
      var im := images[k];
      if im != "" && ':' in im {
        im := FirstPiece(im, ':') + ":" + tag;
        changed := true;
      }
      out := out + [im];
      k := k + 1;
    }
    TakeAll(images);
  }

  method UpdateImageTags(deps: seq<Deployment>, params: Params, ok: Call -> bool) returns (outcome: Outcome)
    ensures outcome == UpdateTags(deps, params, ok)
  {
    var tag := ToStr(Param(params, "newTag"));
    var calls: seq<Call> := [];
    var updated: seq<string> := [];
    var i := 0;
    while i < |deps|
      invariant 0 <= i <= |deps|
      invariant calls == FlatMap(deps[..i], (d: Deployment) => RetagCall(d, tag))
      invariant updated == Accepted(calls, ok)
    {
      FlatMapSnoc(deps, i, (d: Deployment) => RetagCall(d, tag));
      var d := deps[i];
      var images, changed := RetagContainers(d.images, tag);
      if changed {
        var c := SetImages(d.name, d.namespace, images);
        AcceptedSnoc(calls, c, ok);
        calls := calls + [c];
        if ok(c) {
          updated := updated + [c.name];
        }
      }
      i := i + 1;
    }
    TakeAll(deps);
    outcome := Completed("Successfully updated image tags for " + NatToString(|updated|) + " deployments", calls);
  }

  /** The builtin dispatch of `executeBuiltinScript`, after connecting to the cluster. */
  function RunBuiltin(name: string, params: Params, env: Env): Outcome {
    if env.connect.Some? then Raised(env.connect.value)
    else match name
      case "cleanup-evicted-pods" =>
        if env.pods.ListFailed? then Raised(env.pods.failure) else CleanupEvicted(env.pods.items, params, env.callOk)
      case "restart-crashing-pods" =>
        if env.pods.ListFailed? then Raised(env.pods.failure) else RestartCrashing(env.pods.items, params, env.callOk)
      case "scale-deployment" =>
        if env.deployments.ListFailed? then Raised(env.deployments.failure)
        else ScaleDeployments(env.deployments.items, params, env.callOk)
      case "cleanup-old-images" =>
        Completed("Cleanup old images (keep " + ToStr(Param(params, "keepDays")) + " days) - requires node access", [])
      case "backup-configmaps" =>
        if env.configMaps.ListFailed? then Raised(env.configMaps.failure)
        else Completed("Successfully backed up " + NatToString(|env.configMaps.items|) + " ConfigMaps to " +
                       ToStr(Param(params, "backupPath")), [])
      case "check-node-health" =>
        if env.nodes.ListFailed? then Raised(env.nodes.failure) else CheckNodes(env.nodes.items, params)
      case "rotate-logs" =>
        Completed("Log rotation (retention: " + ToStr(Param(params, "retentionDays")) + " days) - requires log access", [])
      case "update-image-tags" =>
        if env.deployments.ListFailed? then Raised(env.deployments.failure)
        else UpdateTags(env.deployments.items, params, env.callOk)
      case _ => Raised(Thrown("Unknown builtin script: " + name))
  }

  method ExecuteBuiltin(name: string, params: Params, env: Env) returns (outcome: Outcome)
    ensures outcome == RunBuiltin(name, params, env)
  {
    if env.connect.Some? {
      return Raised(env.connect.value);
    }
    var issues;
    match name {
      case "cleanup-evicted-pods" =>
        if env.pods.ListFailed? { outcome := Raised(env.pods.failure); }
        else { outcome := CleanupEvictedPods(env.pods.items, params, env.callOk); }
      case "restart-crashing-pods" =>
        if env.pods.ListFailed? { outcome := Raised(env.pods.failure); }
        else { outcome := RestartCrashingPods(env.pods.items, params, env.callOk); }
      case "scale-deployment" =>
        if env.deployments.ListFailed? { outcome := Raised(env.deployments.failure); }
        else { outcome := ScaleDeployment(env.deployments.items, params, env.callOk); }
      case "cleanup-old-images" =>
        outcome := Completed("Cleanup old images (keep " + ToStr(Param(params, "keepDays")) + " days) - requires node access", []);
      case "backup-configmaps" =>
        if env.configMaps.ListFailed? { outcome := Raised(env.configMaps.failure); }
        else {
          outcome := Completed("Successfully backed up " + NatToString(|env.configMaps.items|) + " ConfigMaps to " +
                               ToStr(Param(params, "backupPath")), []);
        }
      case "check-node-health" =>
        if env.nodes.ListFailed? { outcome := Raised(env.nodes.failure); }
        else { outcome, issues := CheckNodeHealth(env.nodes.items, params); }
      case "rotate-logs" =>
        outcome := Completed("Log rotation (retention: " + ToStr(Param(params, "retentionDays")) + " days) - requires log access", []);
      case "update-image-tags" =>
        if env.deployments.ListFailed? { outcome := Raised(env.deployments.failure); }
        else { outcome := UpdateImageTags(env.deployments.items, params, env.callOk); }
      case _ =>
        outcome := Raised(Thrown("Unknown builtin script: " + name));
    }
  }

  /** `executeCustomScript`: the promise settles by how the child process ended. It
      resolves only on exit code 0, with stdout or, when that is empty, stderr; it
      makes no cluster call; a spawn error is passed through unchanged. */
  function RunCustom(s: Script, p: ProcessEnd): (o: Outcome)
    ensures o.Completed? <==> p.Exited? && p.code == Some(0)
    ensures o.Completed? ==> o.output == (if p.stdout != "" then p.stdout else p.stderr) && o.calls == []
    ensures p.SpawnFailed? ==> o == Raised(p.failure)
    ensures p.TimedOut? ==> o.failure.message == "Script execution timeout after " + IntToString(s.timeout) + " seconds"
  {
    match p
    case Exited(code, stdout, stderr) =>
      if code == Some(0) then Completed(if stdout != "" then stdout else stderr, [])
      else Raised(Thrown("Script exited with code " + (if code.None? then "null" else IntToString(code.value)) + ": " + stderr))
    case TimedOut => Raised(Thrown("Script execution timeout after " + IntToString(s.timeout) + " seconds"))
    case SpawnFailed(f) => Raised(f)
  }

  /** The handler outcome of a run of script `s`. */
  function RunScript(s: Script, env: Env): Outcome {
    if s.kind == "builtin" then RunBuiltin(s.script, s.parameters, env)
    else if s.kind == "custom" then RunCustom(s, env.process)
    else Raised(Thrown("Unknown script type: " + s.kind))
  }

  // ------------------------------------------------------------------------
  // executeScript
  // ------------------------------------------------------------------------

  /** The record of a finished run that started at `start` and ended at `end` (ms). */
  function Finish(s: Script, execId: string, trigger: string, params: Params, outcome: Outcome, start: int, end: int): Execution {
    var e := Execution(execId, s.id, s.name, trigger, s.parameters + params, "running", "", None, start, end,
                       (end - start) / 1000);
    match outcome
    case Completed(output, _) => e.(status := "success", output := output)
    case Raised(f) => e.(status := "failed", error := Some(f.message), output := f.stack)
  }

  /** The `try` block of `executeScript` for script `s`: dispatch by type, then fill in
      the record. */
  method Run(s: Script, execId: string, trigger: string, params: Params, env: Env, start: int, end: int)
    returns (e: Execution)
    ensures e == Finish(s, execId, trigger, params, RunScript(s, env), start, end)
  {
    e := Execution(execId, s.id, s.name, trigger, s.parameters + params, "running", "", None, start, 0, 0);
    var outcome: Outcome;
    if s.kind == "builtin" {
      outcome := ExecuteBuiltin(s.script, s.parameters, env);
    } else if s.kind == "custom" {
      outcome := RunCustom(s, env.process);
    } else {
      outcome := Raised(Thrown("Unknown script type: " + s.kind));
    }
    if outcome.Completed? {
      e := e.(status := "success", output := outcome.output);
    } else {
      e := e.(status := "failed", error := Some(outcome.failure.message), output := outcome.failure.stack);
    }
    e := e.(endTime := end, duration := (end - start) / 1000);
  }

  /** `executeScript(scriptId, trigger, parameters)`: the state afterwards and the record. */
  function Execute(st: AutomationState, scriptId: string, trigger: string, params: Params, env: Env,
                   execId: string, start: int, end: int): Result<(AutomationState, Execution)> {
    var i := IndexOf(st.scripts, ScriptId, scriptId);
    if i < 0 then Fail(NotFound("Script not found: " + scriptId))
    else
      var e := Finish(st.scripts[i], execId, trigger, params, RunScript(st.scripts[i], env), start, end);
      Ok((st.(history := Prepend(e, st.history, HistoryCap)), e))
  }

  /** An unknown script id throws and records nothing. A known one records exactly one
      finished run at the head of the history (never `running`), capped at 1000, with the
      caller's parameters laid over the script's, a duration in whole seconds rounded
      down, and `success` exactly when the handler completed. */
  lemma ExecuteLaws(st: AutomationState, scriptId: string, trigger: string, params: Params, env: Env,
                    execId: string, start: int, end: int)
    ensures Execute(st, scriptId, trigger, params, env, execId, start, end).Fail? <==>
      forall j :: 0 <= j < |st.scripts| ==> st.scripts[j].id != scriptId
    ensures Execute(st, scriptId, trigger, params, env, execId, start, end).Ok? ==>
      var (st', e) := Execute(st, scriptId, trigger, params, env, execId, start, end).value;
      var s := st.scripts[IndexOf(st.scripts, ScriptId, scriptId)];
      st'.scripts == st.scripts && st'.tasks == st.tasks &&
      st'.history[0] == e && 1 <= |st'.history| <= HistoryCap && st'.history[1..] == st.history[..|st'.history| - 1] &&
      e.status != "running" &&
      (e.status == "success" <==> RunScript(s, env).Completed?) &&
      (e.status == "failed" <==> RunScript(s, env).Raised?) &&
      (RunScript(s, env).Raised? ==> e.error == Some(RunScript(s, env).failure.message)) &&
      (forall k :: k in params ==> e.parameters[k] == params[k]) &&
      (forall k :: k in s.parameters && k !in params ==> e.parameters[k] == s.parameters[k]) &&
      e.duration * 1000 <= end - start < e.duration * 1000 + 1000
  {
  }

  /** Builtin handlers see the script's own parameters, not the merged ones: the caller's
      parameters change the recorded parameters and nothing about the outcome. */
  lemma CallerParamsDoNotReachHandlers(st: AutomationState, scriptId: string, trigger: string, p1: Params, p2: Params,
                                       env: Env, execId: string, start: int, end: int)
    requires Execute(st, scriptId, trigger, p1, env, execId, start, end).Ok?
    ensures var e1 := Execute(st, scriptId, trigger, p1, env, execId, start, end).value.1;
      var e2 := Execute(st, scriptId, trigger, p2, env, execId, start, end).value.1;
      e1.status == e2.status && e1.output == e2.output && e1.error == e2.error
  {
  }

  /** A script of an unknown type, or a builtin with an unknown name, fails. */
  lemma UnknownScriptsFail(s: Script, env: Env)
    ensures s.kind !in {"builtin", "custom"} ==> RunScript(s, env) == Raised(Thrown("Unknown script type: " + s.kind))
    ensures (s.kind == "builtin" && env.connect.None? &&
             s.script !in {"cleanup-evicted-pods", "restart-crashing-pods", "scale-deployment", "cleanup-old-images",
                           "backup-configmaps", "check-node-health", "rotate-logs", "update-image-tags"}) ==>
      RunScript(s, env) == Raised(Thrown("Unknown builtin script: " + s.script))
  {
  }

  // ------------------------------------------------------------------------
  // Queries and statistics
  // ------------------------------------------------------------------------

  predicate MatchesRun(e: Execution, scriptId: string, status: string) {
    (scriptId != "" ==> e.scriptId == scriptId) && (status != "" ==> e.status == status)
  }

  /** `getScriptHistory({scriptId, status, limit})`; empty strings and a zero limit are
      absent options, and the two successive filters are one filter by their conjunction. */
  function HistoryQuery(history: seq<Execution>, scriptId: string, status: string, limit: int): (r: seq<Execution>)
    ensures forall e :: e in r ==> e in history && MatchesRun(e, scriptId, status)
    ensures limit > 0 ==> |r| <= limit
    ensures limit == 0 ==> forall e :: e in history && MatchesRun(e, scriptId, status) ==> e in r
  {
    ApplyLimit(Filter(history, RunFilter(scriptId, status)), limit)
  }

  /** The options of `getScriptHistory` as one condition. */
  function RunFilter(scriptId: string, status: string): Execution -> bool {
    (e: Execution) => MatchesRun(e, scriptId, status)
  }

  /** The run-history query returns runs passing both filters, newest first as stored:
      all matches without a limit, the first `limit` of them with a positive limit (every
      match among those included), and all but the last `-limit` with a negative one. */
  lemma HistoryQueryLaws(history: seq<Execution>, scriptId: string, status: string, limit: int)
    ensures var q := HistoryQuery(history, scriptId, status, limit);
      IsSubsequence(q, history) && forall i :: 0 <= i < |q| ==> MatchesRun(q[i], scriptId, status)
    ensures var m := Filter(history, RunFilter(scriptId, status));
      var q := HistoryQuery(history, scriptId, status, limit);
      |m| == Count(history, RunFilter(scriptId, status)) &&
      (limit == 0 ==> q == m) && (limit > 0 ==> q == m[..Min(limit, |m|)]) && (limit < 0 ==> q == m[..Max(0, |m| + limit)])
    ensures forall j :: 0 <= j < |history| && MatchesRun(history[j], scriptId, status) &&
                        (limit == 0 || (0 < limit && Count(history[..j + 1], RunFilter(scriptId, status)) <= limit)) ==>
      history[j] in HistoryQuery(history, scriptId, status, limit)
  {
    FilterLaws(history, RunFilter(scriptId, status));
    FilterLimitLaws(history, RunFilter(scriptId, status), limit);
  }

  /** One entry of `byScript`. */
  datatype Tally = Tally(name: string, total: nat, success: nat, failed: nat)

  /** `byScript[exec.scriptId]` bumped for one execution; the name is the first one seen. */
  function TallyOne(d: Dict<Tally>, e: Execution): (r: Dict<Tally>)
    ensures DistinctKeys(d) ==> DistinctKeys(r)
    ensures forall i :: 0 <= i < |r| ==> r[i].key == e.scriptId || exists j :: 0 <= j < |d| && d[j].key == r[i].key
    decreases |d|
  {
    if |d| == 0 then
      [Entry(e.scriptId, Tally(e.scriptName, 1, if e.status == "success" then 1 else 0,
                               if e.status == "failed" then 1 else 0))]
    else if d[0].key == e.scriptId then
      var t := d[0].val;
      [Entry(e.scriptId, Tally(t.name, t.total + 1, t.success + (if e.status == "success" then 1 else 0),
                               t.failed + (if e.status == "failed" then 1 else 0)))] + d[1..]
    else [d[0]] + TallyOne(d[1..], e)
  }

  function TallyAll(h: seq<Execution>): Dict<Tally>
    decreases |h|
  {
    if |h| == 0 then [] else TallyOne(TallyAll(h[..|h| - 1]), h[|h| - 1])
  }

  function TotalRuns(d: Dict<Tally>): nat
    decreases |d|
  {
    if |d| == 0 then 0 else d[0].val.total + TotalRuns(d[1..])
  }

  predicate TalliesConsistent(d: Dict<Tally>) {
    forall i :: 0 <= i < |d| ==> d[i].val.success + d[i].val.failed <= d[i].val.total
  }

  lemma {:induction false} TallyOneLaws(d: Dict<Tally>, e: Execution)
    ensures TotalRuns(TallyOne(d, e)) == TotalRuns(d) + 1
    ensures TalliesConsistent(d) ==> TalliesConsistent(TallyOne(d, e))
    decreases |d|
  {
    if |d| > 0 && d[0].key != e.scriptId {
      TallyOneLaws(d[1..], e);
      var r := TallyOne(d, e);
      if TalliesConsistent(d) {
        forall i | 0 <= i < |r| ensures r[i].val.success + r[i].val.failed <= r[i].val.total {
          if i > 0 { assert r[i] == TallyOne(d[1..], e)[i - 1]; }
        }
      }
    }
  }

  function RunScriptId(e: Execution): string { e.scriptId }

  /** The runs of script `k` that ended with `status`. */
  function RunsOf(k: string, status: string): Execution -> bool {
    (e: Execution) => e.scriptId == k && e.status == status
  }

  /** The entry of `k` after one more execution `e`, from the one before it. */
  function Bumped(o: Option<Tally>, e: Execution): Tally {
    var t := o.GetOr(Tally(e.scriptName, 0, 0, 0));
    Tally(t.name, t.total + 1, t.success + (if e.status == "success" then 1 else 0),
          t.failed + (if e.status == "failed" then 1 else 0))
  }

  lemma {:induction false} TallyOneAt(d: Dict<Tally>, e: Execution, k: string)
    ensures Lookup(TallyOne(d, e), k) == if k == e.scriptId then Some(Bumped(Lookup(d, k), e)) else Lookup(d, k)
    decreases |d|
  {
    if |d| > 0 && d[0].key != e.scriptId {
      TallyOneAt(d[1..], e, k);
    }
  }

  /** Per script id `k`: `byScript` has an entry exactly when some run is of `k`; its
      `total`, `success` and `failed` count the runs of `k`, those that succeeded and
      those that failed; its `name` is that of the first run of `k` in the history. */
  lemma TallyAllAt(h: seq<Execution>, k: string)
    ensures Lookup(TallyAll(h), k).None? <==> forall j :: 0 <= j < |h| ==> h[j].scriptId != k
    ensures var t := Lookup(TallyAll(h), k).GetOr(Tally("", 0, 0, 0));
      t.total == CountKey(h, RunScriptId, k) && t.success == Count(h, RunsOf(k, "success")) &&
      t.failed == Count(h, RunsOf(k, "failed"))
    ensures Lookup(TallyAll(h), k).Some? ==>
      var j := IndexOf(h, RunScriptId, k); 0 <= j && Lookup(TallyAll(h), k).value.name == h[j].scriptName
  {
    TallyAllPresence(h, k);
    TallyAllCounts(h, k);
    TallyAllName(h, k);
  }

  lemma TallyAllPresence(h: seq<Execution>, k: string)
    ensures Lookup(TallyAll(h), k).None? <==> forall j :: 0 <= j < |h| ==> h[j].scriptId != k
  {
    TallyAllIndex(h, k);
    assert forall j :: 0 <= j < |h| ==> RunScriptId(h[j]) == h[j].scriptId;
  }

  /** `byScript` has no entry for `k` exactly when no run is of `k`. */
  lemma {:induction false} TallyAllIndex(h: seq<Execution>, k: string)
    ensures Lookup(TallyAll(h), k).None? <==> IndexOf(h, RunScriptId, k) < 0
    decreases |h|
  {
    if |h| > 0 {
      var front := h[..|h| - 1];
      var e := h[|h| - 1];
      assert h == front + [e];
      TallyAllIndex(front, k);
      TallyAllStep(h, k);
      IndexOfSnoc(front, e, RunScriptId, k);
      var l := Lookup(TallyAll(h), k);
      if IndexOf(front, RunScriptId, k) >= 0 {
        assert Lookup(TallyAll(front), k).Some? && l.Some?;
      } else if e.scriptId == k {
        assert l.Some?;
      } else {
        assert l == Lookup(TallyAll(front), k);
      }
    }
  }

  /** One more run changes only the entry of its own script. */
  lemma TallyAllStep(h: seq<Execution>, k: string)
    requires |h| > 0
    ensures var e := h[|h| - 1];
      Lookup(TallyAll(h), k) ==
        if k == e.scriptId then Some(Bumped(Lookup(TallyAll(h[..|h| - 1]), k), e)) else Lookup(TallyAll(h[..|h| - 1]), k)
  {
    TallyOneAt(TallyAll(h[..|h| - 1]), h[|h| - 1], k);
  }

  lemma {:induction false} TallyAllCounts(h: seq<Execution>, k: string)
    ensures var t := Lookup(TallyAll(h), k).GetOr(Tally("", 0, 0, 0));
      t.total == CountKey(h, RunScriptId, k) && t.success == Count(h, RunsOf(k, "success")) &&
      t.failed == Count(h, RunsOf(k, "failed"))
    decreases |h|
  {
    if |h| > 0 {
      var front := h[..|h| - 1];
      TallyAllCounts(front, k);
      TallyOneAt(TallyAll(front), h[|h| - 1], k);
    }
  }

  lemma {:induction false} TallyAllName(h: seq<Execution>, k: string)
    ensures Lookup(TallyAll(h), k).Some? ==>
      var j := IndexOf(h, RunScriptId, k); 0 <= j && Lookup(TallyAll(h), k).value.name == h[j].scriptName
    decreases |h|
  {
    if |h| > 0 {
      var front := h[..|h| - 1];
      var e := h[|h| - 1];
      assert h == front + [e];
      TallyAllName(front, k);
      TallyAllPresence(front, k);
      TallyOneAt(TallyAll(front), e, k);
      IndexOfSnoc(front, e, RunScriptId, k);
    }
  }

  /** `byScript` accounts for every execution once, under its own script id, with no id
      twice: per id, the runs of that script, its successes and failures, and the name
      of its first run; no script has more successes and failures together than runs. */
  lemma {:induction false} TallyAllLaws(h: seq<Execution>, k: string)
    ensures TotalRuns(TallyAll(h)) == |h|
    ensures TalliesConsistent(TallyAll(h))
    ensures DistinctKeys(TallyAll(h))
    ensures Lookup(TallyAll(h), k).None? <==> forall j :: 0 <= j < |h| ==> h[j].scriptId != k
    ensures Lookup(TallyAll(h), k).Some? ==>
      var t := Lookup(TallyAll(h), k).value;
      var j := IndexOf(h, RunScriptId, k);
      t.total == CountKey(h, RunScriptId, k) && t.success == Count(h, RunsOf(k, "success")) &&
      t.failed == Count(h, RunsOf(k, "failed")) && 0 <= j && t.name == h[j].scriptName
    decreases |h|
  {
    TallyAllAt(h, k);
    if |h| > 0 {
      TallyAllLaws(h[..|h| - 1], k);
      TallyOneLaws(TallyAll(h[..|h| - 1]), h[|h| - 1]);
    }
  }

  datatype ScriptStats = ScriptStats(totalScripts: nat, enabledScripts: nat, scheduledTasks: nat,
                                     totalExecutions: nat, successful: nat, failed: nat, running: nat,
                                     byScript: Dict<Tally>, recent24h: nat)

  predicate Succeeded(e: Execution) { e.status == "success" }
  predicate Failed(e: Execution) { e.status == "failed" }
  predicate Running(e: Execution) { e.status == "running" }
  predicate IsEnabled(s: Script) { s.enabled }

  /** `getScriptStatistics()` at clock `now`. */
  function StatsOf(st: AutomationState, now: int): ScriptStats {
    ScriptStats(|st.scripts|, Count(st.scripts, IsEnabled), |st.tasks|, |st.history|,
                Count(st.history, Succeeded), Count(st.history, Failed), Count(st.history, Running),
                TallyAll(st.history), Count(st.history, (e: Execution) => e.startTime > now - DayMillis))
  }

  lemma {:induction false} StatusCountsBound(h: seq<Execution>)
    ensures Count(h, Succeeded) + Count(h, Failed) + Count(h, Running) <= |h|
    decreases |h|
  {
    if |h| > 0 { StatusCountsBound(h[..|h| - 1]); }
  }

  /** The per-script totals add up to the number of executions, each script id's entry
      counts that script's runs, successes and failures and carries its first run's name,
      and the three status counts never exceed the number of executions. */
  lemma StatsLaws(st: AutomationState, now: int)
    ensures TotalRuns(StatsOf(st, now).byScript) == StatsOf(st, now).totalExecutions
    ensures TalliesConsistent(StatsOf(st, now).byScript) && DistinctKeys(StatsOf(st, now).byScript)
    ensures forall k :: Lookup(StatsOf(st, now).byScript, k).Some? ==>
      var t := Lookup(StatsOf(st, now).byScript, k).value;
      var j := IndexOf(st.history, RunScriptId, k);
      t.total == CountKey(st.history, RunScriptId, k) && t.success == Count(st.history, RunsOf(k, "success")) &&
      t.failed == Count(st.history, RunsOf(k, "failed")) && 0 <= j && t.name == st.history[j].scriptName
    ensures forall k :: Lookup(StatsOf(st, now).byScript, k).None? <==>
      forall j :: 0 <= j < |st.history| ==> st.history[j].scriptId != k
    ensures StatsOf(st, now).successful + StatsOf(st, now).failed + StatsOf(st, now).running <= StatsOf(st, now).totalExecutions
  {
    TallyAllLaws(st.history, "");
    forall k ensures Lookup(TallyAll(st.history), k).None? <==>
                     forall j :: 0 <= j < |st.history| ==> st.history[j].scriptId != k
    {
      TallyAllLaws(st.history, k);
    }
    forall k | Lookup(TallyAll(st.history), k).Some?
      ensures var t := Lookup(TallyAll(st.history), k).value;
        var j := IndexOf(st.history, RunScriptId, k);
        t.total == CountKey(st.history, RunScriptId, k) && t.success == Count(st.history, RunsOf(k, "success")) &&
        t.failed == Count(st.history, RunsOf(k, "failed")) && 0 <= j && t.name == st.history[j].scriptName
    {
      TallyAllLaws(st.history, k);
    }
    StatusCountsBound(st.history);
  }

  /** A history that only `executeScript` wrote holds no `running` run. */
  lemma {:induction false} ExecuteLeavesNoRunning(st: AutomationState, scriptId: string, trigger: string, params: Params,
                                                  env: Env, execId: string, start: int, end: int)
    requires Count(st.history, Running) == 0
    requires Execute(st, scriptId, trigger, params, env, execId, start, end).Ok?
    ensures Count(Execute(st, scriptId, trigger, params, env, execId, start, end).value.0.history, Running) == 0
  {
    var (st', e) := Execute(st, scriptId, trigger, params, env, execId, start, end).value;
    NoneRunningPrefix(st.history, |st'.history| - 1);
    assert st'.history == [e] + st.history[..|st'.history| - 1];
    CountAppend([e], st.history[..|st'.history| - 1], Running);
    assert [e][..0] == [];
  }

  lemma {:induction false} NoneRunningPrefix(h: seq<Execution>, n: nat)
    requires n <= |h| && Count(h, Running) == 0
    ensures Count(h[..n], Running) == 0
    decreases |h|
  {
    if n < |h| {
      assert h[..|h| - 1][..n] == h[..n];
      NoneRunningPrefix(h[..|h| - 1], n);
    } else {
      assert h[..n] == h;
    }
  }

  // ------------------------------------------------------------------------
  // The module-level state as an object
  // ------------------------------------------------------------------------

  /** The module's `automationScripts`, `scriptHistory` and `scheduledTasks`. */
  class Registry {
    var scripts: seq<Script>
    var history: seq<Execution>
    var tasks: map<string, Task>

    ghost predicate Valid() reads this {
      |history| <= HistoryCap && TasksSound(State())
    }

    function State(): AutomationState reads this {
      AutomationState(scripts, history, tasks)
    }

    constructor (initial: seq<Script>)
      ensures Valid() && State() == AutomationState(initial, [], map[])
    {
      scripts := initial;
      history := [];
      tasks := map[];
    }

    /** `scheduleScript(script)` */
    method ScheduleScript(s: Script)
      modifies this
      ensures tasks == Schedule(old(tasks), s)
      ensures scripts == old(scripts) && history == old(history)
    {
      if s.id in tasks {
        return;
      }
      tasks := tasks[s.id := Task(s.schedule)];
    }

    /** `unscheduleScript(scriptId)` */
    method UnscheduleScript(scriptId: string)
      modifies this
      ensures tasks == Unschedule(old(tasks), scriptId)
      ensures scripts == old(scripts) && history == old(history)
    {
      if scriptId in tasks {
        tasks := tasks - {scriptId};
      }
    }

    /** `addAutomationScript(script)` */
    method AddScript(input: ScriptInput, freshId: string, now: int) returns (s: Script)
      requires Valid()
      modifies this
      ensures Valid()
      ensures s == NewScript(input, freshId, now)
      ensures State() == ScriptAddition(old(State()), input, freshId, now)
    {
      s := NewScript(input, freshId, now);
      scripts := scripts + [s];
      if s.enabled && s.schedule != "" {
        ScheduleScript(s);
      }
      AddScriptLaws(old(State()), input, freshId, now);
    }

    /** `updateAutomationScript(scriptId, updates)` */
    method UpdateScript(scriptId: string, p: ScriptPatch, now: int) returns (res: Result<Script>)
      requires Valid()
      modifies this
      ensures Valid()
      ensures var spec := ScriptUpdate(old(State()), scriptId, p, now);
        (spec.Fail? ==> res == Fail(spec.error) && State() == old(State())) &&
        (spec.Ok? ==> res == Ok(spec.value.1) && State() == spec.value.0)
    {
      var i := IndexOf(scripts, ScriptId, scriptId);
      if i < 0 {
        return Fail(NotFound("Automation script not found: " + scriptId));
      }
      var prev := scripts[i];
      var s := PatchScript(prev, p, scriptId, now);
      scripts := scripts[i := s];
      if prev.schedule != "" {
        UnscheduleScript(scriptId);
      }
      if s.enabled && s.schedule != "" {
        ScheduleScript(s);
      }
      res := Ok(s);
      UpdateScriptLaws(old(State()), scriptId, p, now);
    }

    /** `deleteAutomationScript(scriptId)` */
    method DeleteScript(scriptId: string) returns (res: Result<Script>)
      requires Valid()
      modifies this
      ensures Valid()
      ensures var spec := ScriptRemoval(old(State()), scriptId);
        (spec.Fail? ==> res == Fail(spec.error) && State() == old(State())) &&
        (spec.Ok? ==> res == Ok(spec.value.1) && State() == spec.value.0)
    {
      ghost var spec := ScriptRemoval(State(), scriptId);
      DeleteScriptLaws(State(), scriptId);
      var i := IndexOf(scripts, ScriptId, scriptId);
      if i < 0 {
        return Fail(NotFound("Automation script not found: " + scriptId));
      }
      var remaining := scripts[..i] + scripts[i + 1..];
      assert spec == Ok((AutomationState(remaining, history, Unschedule(tasks, scriptId)), scripts[i]));
      res := Ok(scripts[i]);
      scripts := remaining;
      UnscheduleScript(scriptId);
    }

    /** `startAllScheduledTasks()` */
    method StartAll()
      requires Valid()
      modifies this
      ensures Valid()
      ensures tasks == ScheduleAll(old(tasks), scripts)
      ensures scripts == old(scripts) && history == old(history)
    {
      var i := 0;
      while i < |scripts|
        invariant 0 <= i <= |scripts| && scripts == old(scripts) && history == old(history)
        invariant tasks == ScheduleAll(old(tasks), scripts[..i])
      {
        assert scripts[..i + 1][..i] == scripts[..i];
        if scripts[i].enabled && scripts[i].schedule != "" {
          ScheduleScript(scripts[i]);
        }
        i := i + 1;
      }
      assert scripts[..i] == scripts;
      ScheduleAllLaws(old(State()), |scripts|);
    }

    /** `stopAllScheduledTasks()` */
    method StopAll()
      requires Valid()
      modifies this
      ensures Valid()
      ensures tasks == map[] && scripts == old(scripts) && history == old(history)
    {
      tasks := map[];
    }

    /** `executeScript(scriptId, trigger, parameters)` */
    method ExecuteScript(scriptId: string, trigger: string, params: Params, env: Env,
                         execId: string, start: int, end: int) returns (res: Result<Execution>)
      requires Valid()
      modifies this
      ensures Valid()
      ensures var spec := Execute(old(State()), scriptId, trigger, params, env, execId, start, end);
        (spec.Fail? ==> res == Fail(spec.error) && State() == old(State())) &&
        (spec.Ok? ==> res == Ok(spec.value.1) && State() == spec.value.0)
    {
      ghost var spec := Execute(State(), scriptId, trigger, params, env, execId, start, end);
      var i := IndexOf(scripts, ScriptId, scriptId);
      if i < 0 {
        return Fail(NotFound("Script not found: " + scriptId));
      }
      var s := scripts[i];
      var e := Run(s, execId, trigger, params, env, start, end);
      var newest := [e] + history;
      if |newest| > HistoryCap {
        newest := newest[..HistoryCap];
      }
      assert newest == Prepend(e, history, HistoryCap);
      assert spec == Ok((State().(history := newest), e));
      SoundWithAnyHistory(State(), newest);
      history := newest;
      res := Ok(e);
    }

    /** `getScriptStatistics()`: the `byScript` pass over the history. */
    method Statistics(now: int) returns (st: ScriptStats)
      requires Valid()
      ensures st == StatsOf(State(), now)
    {
      var byScript: Dict<Tally> := [];
      var recent := 0;
      var i := 0;
      while i < |history|
        invariant 0 <= i <= |history|
        invariant byScript == TallyAll(history[..i])
        invariant recent == Count(history[..i], (e: Execution) => e.startTime > now - DayMillis)
      {
        assert history[..i + 1][..i] == history[..i];
        byScript := TallyOne(byScript, history[i]);
        if history[i].startTime > now - DayMillis {
          recent := recent + 1;
        }
        i := i + 1;
      }
      assert history[..i] == history;
      st := ScriptStats(|scripts|, Count(scripts, IsEnabled), |tasks|, |history|,
                        Count(history, Succeeded), Count(history, Failed), Count(history, Running),
                        byScript, recent);
    }
  }
}
