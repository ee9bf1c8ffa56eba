/**
 * The tasks and task_logs tables of the gateway's database, held in memory.
 * Rows are kept in insertion order; every query is a filter, an ORDER BY and
 * a LIMIT over them (module Ordering). Identifiers and timestamps are
 * handed in by the caller, as uuid() and the clock hand them to the source.
 */
module TaskStore {
  import opened Types
  import opened Ordering

  const DefaultPriority: Priority := 3
  const DefaultListLimit := 100
  const DefaultLogLimit := 100
  const DefaultRecentLogLimit := 50

  // ─── Creating ─────────────────────────────────────────

  /** The row `createTask` inserts: every omitted field takes its default. */
  function NewTask(input: TaskCreateInput, id: nat, now: nat): Task {
    Task(
      id := id,
      title := input.title,
      description := input.description,
      kind := input.kind,
      status := Created,
      priority := if input.priority.Some? then input.priority.value else DefaultPriority,
      assignedAgent := input.assignedAgent,
      parentTaskId := input.parentTaskId,
      input := if input.input.Some? then input.input.value else map[],
      output := None,
      requiresApproval := if input.requiresApproval.Some? then input.requiresApproval.value else true,
      createdAt := now,
      startedAt := None,
      completedAt := None)
  }

  lemma NewTaskFields(input: TaskCreateInput, id: nat, now: nat)
    ensures var t := NewTask(input, id, now);
      && t.id == id && t.createdAt == now
      && t.title == input.title && t.description == input.description && t.kind == input.kind
      && t.status == Created
      && t.output.None? && t.startedAt.None? && t.completedAt.None?
      && (input.priority.None? ==> t.priority == 3)
      && (input.priority.Some? ==> t.priority == input.priority.value)
      && (input.assignedAgent.None? ==> t.assignedAgent.None?)
      && (input.parentTaskId.None? ==> t.parentTaskId.None?)
      && (input.input.None? ==> t.input == map[])
      && (input.requiresApproval.None? ==> t.requiresApproval)
      && (input.requiresApproval.Some? ==> t.requiresApproval == input.requiresApproval.value)
  {
  }

  // ─── Looking up ────────────────────────────────────────

  predicate UniqueIds(tasks: seq<Task>) {
    forall i, j :: 0 <= i < j < |tasks| ==> tasks[i].id != tasks[j].id
  }

  /** `getTask`: the row with that id, if any. */
  function Find(tasks: seq<Task>, id: nat): (r: Option<Task>)
    ensures r.Some? ==> r.value in tasks && r.value.id == id
    ensures r.None? <==> forall i :: 0 <= i < |tasks| ==> tasks[i].id != id
  {
    if |tasks| == 0 then None
    else if tasks[0].id == id then Some(tasks[0])
    else Find(tasks[1..], id)
  }

  lemma {:induction false} FindUnique(tasks: seq<Task>, k: nat)
    requires UniqueIds(tasks) && k < |tasks|
    ensures Find(tasks, tasks[k].id) == Some(tasks[k])
  {
    if k > 0 {
      assert tasks[0].id != tasks[k].id;
      assert UniqueIds(tasks[1..]) by {
        forall i, j | 0 <= i < j < |tasks[1..]|
          ensures tasks[1..][i].id != tasks[1..][j].id
        {
          assert tasks[1..][i] == tasks[i + 1] && tasks[1..][j] == tasks[j + 1];
        }
      }
      FindUnique(tasks[1..], k - 1);
    }
  }

  // ─── Updating the status ───────────────────────────────

  /** The optional `extra` argument of `updateTaskStatus`. */
  datatype Extra = Extra(output: Option<Output>, assignedAgent: Option<string>)

  const NoExtra := Extra(None, None)

  predicate IsFinish(status: TaskStatus) {
    status == Completed || status == Failed
  }

  /**
   * The row `updateTaskStatus` writes back for `t`. No transition is checked:
   * every target status is accepted from every current status.
   */
  function Transition(t: Task, status: TaskStatus, extra: Extra, now: nat): (r: Task)
    // only the status, the assignee, the output and the two timestamps can change
    ensures r.(status := t.status, assignedAgent := t.assignedAgent, output := t.output,
               startedAt := t.startedAt, completedAt := t.completedAt) == t
    ensures r.status == status
    // a supplied extra value wins; otherwise the previous value is kept
    ensures extra.assignedAgent.Some? ==> r.assignedAgent == extra.assignedAgent
    ensures extra.assignedAgent.None? ==> r.assignedAgent == t.assignedAgent
    ensures extra.output.Some? ==> r.output == extra.output
    ensures extra.output.None? ==> r.output == t.output
    // startedAt is written once, on the first move into running, and never again
    ensures t.startedAt.Some? ==> r.startedAt == t.startedAt
    ensures t.startedAt.None? ==> r.startedAt == (if status == Running then Some(now) else None)
    // completedAt is rewritten by every finish and kept by everything else
    ensures IsFinish(status) ==> r.completedAt == Some(now)
    ensures !IsFinish(status) ==> r.completedAt == t.completedAt
  {
    var startedAt := if status == Running && t.startedAt.None? then Some(now) else t.startedAt;
    var completedAt := if IsFinish(status) then Some(now) else t.completedAt;
    t.(status := status,
       assignedAgent := if extra.assignedAgent.Some? then extra.assignedAgent else t.assignedAgent,
       output := if extra.output.Some? then extra.output else t.output,
       startedAt := startedAt,
       completedAt := completedAt)
  }

  /** The table after `UPDATE tasks SET … WHERE id = ?`. */
  function UpdateRows(tasks: seq<Task>, id: nat, status: TaskStatus, extra: Extra, now: nat): (r: seq<Task>)
    ensures |r| == |tasks|
    ensures forall i :: 0 <= i < |tasks| ==> r[i].id == tasks[i].id
    ensures forall i :: 0 <= i < |tasks| && tasks[i].id != id ==> r[i] == tasks[i]
  {
    seq(|tasks|, i requires 0 <= i < |tasks| =>
      if tasks[i].id == id then Transition(tasks[i], status, extra, now) else tasks[i])
  }

  /** What `updateTaskStatus` returns: nothing for an unknown id, else the updated row. */
  function UpdateResult(tasks: seq<Task>, id: nat, status: TaskStatus, extra: Extra, now: nat): Option<Task> {
    match Find(tasks, id)
    case None => None
    case Some(t) => Some(Transition(t, status, extra, now))
  }

  /** An update of an unknown id changes no row and returns null. */
  lemma UpdateUnknown(tasks: seq<Task>, id: nat, status: TaskStatus, extra: Extra, now: nat)
    requires Find(tasks, id).None?
    ensures UpdateRows(tasks, id, status, extra, now) == tasks
    ensures UpdateResult(tasks, id, status, extra, now).None?
  {
  }

  /** After an update the row holds exactly what was returned, and every other id reads as before. */
  lemma {:induction false} UpdateFind(tasks: seq<Task>, id: nat, status: TaskStatus, extra: Extra, now: nat, other: nat)
    requires UniqueIds(tasks)
    ensures UniqueIds(UpdateRows(tasks, id, status, extra, now))
    ensures Find(UpdateRows(tasks, id, status, extra, now), id) == UpdateResult(tasks, id, status, extra, now)
    ensures other != id ==> Find(UpdateRows(tasks, id, status, extra, now), other) == Find(tasks, other)
  {
    var r := UpdateRows(tasks, id, status, extra, now);
    assert UniqueIds(r) by {
      forall i, j | 0 <= i < j < |r|
        ensures r[i].id != r[j].id
      {
        assert r[i].id == tasks[i].id && r[j].id == tasks[j].id;
      }
    }
    if |tasks| > 0 {
      var tail := UpdateRows(tasks[1..], id, status, extra, now);
      assert r[1..] == tail;
      assert UniqueIds(tasks[1..]) by {
        forall i, j | 0 <= i < j < |tasks[1..]|
          ensures tasks[1..][i].id != tasks[1..][j].id
        {
          assert tasks[1..][i] == tasks[i + 1] && tasks[1..][j] == tasks[j + 1];
        }
      }
      UpdateFind(tasks[1..], id, status, extra, now, other);
      if tasks[0].id == id {
        assert r[0] == Transition(tasks[0], status, extra, now);
        assert Find(r, id) == Some(r[0]);
        assert Find(tasks, id) == Some(tasks[0]);
      } else {
        assert r[0] == tasks[0];
        assert Find(r, id) == Find(tail, id);
        assert Find(tasks, id) == Find(tasks[1..], id);
      }
    }
  }

  /** The row with this id is waiting in the queue. */
  predicate IsQueued(tasks: seq<Task>, id: nat) {
    Find(tasks, id).Some? && Find(tasks, id).value.status == Queued
  }

  /**
   * Moving a row to any status but `queued` never lengthens the queue, and
   * shortens it by one when the row was queued.
   */
  lemma {:induction false} UpdateShrinksQueue(tasks: seq<Task>, id: nat, status: TaskStatus, extra: Extra, now: nat)
    requires status != Queued
    ensures CountStatus(UpdateRows(tasks, id, status, extra, now), Queued) <= CountStatus(tasks, Queued)
    ensures IsQueued(tasks, id) ==>
      CountStatus(UpdateRows(tasks, id, status, extra, now), Queued) < CountStatus(tasks, Queued)
    decreases |tasks|
  {
    if |tasks| > 0 {
      var r := UpdateRows(tasks, id, status, extra, now);
      assert r[1..] == UpdateRows(tasks[1..], id, status, extra, now);
      UpdateShrinksQueue(tasks[1..], id, status, extra, now);
    }
  }

  // ─── A history of updates ──────────────────────────────

  datatype Update = Update(status: TaskStatus, extra: Extra, now: nat)

  function ApplyAll(t: Task, us: seq<Update>): Task
    decreases |us|
  {
    if |us| == 0 then t
    else ApplyAll(Transition(t, us[0].status, us[0].extra, us[0].now), us[1..])
  }

  /** The time of the first update into running, if any. */
  function FirstRun(us: seq<Update>): Option<nat> {
    if |us| == 0 then None
    else if us[0].status == Running then Some(us[0].now)
    else FirstRun(us[1..])
  }

  /** The time of the last update into completed or failed, if any. */
  function LastFinish(us: seq<Update>): Option<nat>
    decreases |us|
  {
    if |us| == 0 then None
    else if IsFinish(us[|us| - 1].status) then Some(us[|us| - 1].now)
    else LastFinish(us[..|us| - 1])
  }

  /**
   * Over any history of updates, startedAt records the first move into
   * running: it is never refreshed by a retry.
   */
  lemma {:induction false} StartedAtIsFirstRun(t: Task, us: seq<Update>)
    ensures ApplyAll(t, us).startedAt == if t.startedAt.Some? then t.startedAt else FirstRun(us)
    decreases |us|
  {
    if |us| > 0 {
      StartedAtIsFirstRun(Transition(t, us[0].status, us[0].extra, us[0].now), us[1..]);
    }
  }

  lemma {:induction false} ApplyAllSnoc(t: Task, us: seq<Update>, u: Update)
    ensures ApplyAll(t, us + [u]) == Transition(ApplyAll(t, us), u.status, u.extra, u.now)
    decreases |us|
  {
    if |us| == 0 {
      assert us + [u] == [u];
    } else {
      assert (us + [u])[1..] == us[1..] + [u];
      ApplyAllSnoc(Transition(t, us[0].status, us[0].extra, us[0].now), us[1..], u);
    }
  }

  /**
   * Over any history of updates, completedAt records the last move into
   * completed or failed; a task that never finished keeps its original value.
   */
  lemma {:induction false} CompletedAtIsLastFinish(t: Task, us: seq<Update>)
    ensures ApplyAll(t, us).completedAt == if LastFinish(us).Some? then LastFinish(us) else t.completedAt
    decreases |us|
  {
    if |us| > 0 {
      var init := us[..|us| - 1];
      var u := us[|us| - 1];
      assert us == init + [u];
      ApplyAllSnoc(t, init, u);
      CompletedAtIsLastFinish(t, init);
    }
  }

  // ─── Listing ───────────────────────────────────────────

  datatype ListOptions = ListOptions(status: Option<TaskStatus>, assignedAgent: Option<string>, limit: Option<int>)

  /** ORDER BY priority ASC, created_at ASC. */
  function PriorityKey(t: Task): Key {
    Key(t.priority, t.createdAt)
  }

  /** The WHERE clause `listTasks` builds; an empty agent name adds no condition. */
  predicate MatchesOptions(o: ListOptions, t: Task) {
    && (o.status.Some? ==> t.status == o.status.value)
    && (Present(o.assignedAgent) ==> t.assignedAgent == o.assignedAgent)
  }

  function ListLimit(o: ListOptions): int {
    if o.limit.Some? then o.limit.value else DefaultListLimit
  }

  function Matching(o: ListOptions): Task -> bool {
    t => MatchesOptions(o, t)
  }

  function ListTasks(tasks: seq<Task>, o: ListOptions): seq<Task> {
    Select(tasks, Matching(o), PriorityKey, ListLimit(o))
  }

  /**
   * `listTasks` returns only matching rows, by priority and then age, at most
   * the limit (100 by default), no row more often than it is stored, all
   * matching rows when they fit, and the earliest ones when the limit cuts.
   */
  lemma {:induction false} ListTasksSpec(tasks: seq<Task>, o: ListOptions)
    ensures var r := ListTasks(tasks, o);
      var matching := Filter(tasks, Matching(o));
      && (forall i :: 0 <= i < |r| ==> r[i] in tasks && MatchesOptions(o, r[i]))
      && (forall i, j :: 0 <= i < j < |r| ==>
            r[i].priority < r[j].priority || (r[i].priority == r[j].priority && r[i].createdAt <= r[j].createdAt))
      && |r| == (if ListLimit(o) < 0 || |matching| <= ListLimit(o) then |matching| else ListLimit(o))
      && ((ListLimit(o) < 0 || |matching| <= ListLimit(o)) ==>
            forall t :: MatchesOptions(o, t) ==> multiset(r)[t] == multiset(tasks)[t])
      && Answers(r, tasks, Matching(o), PriorityKey, ListLimit(o))
  {
    SelectSpec(tasks, Matching(o), PriorityKey, ListLimit(o));
  }

  /** `getNextQueuedTask`'s WHERE clause; without an agent name it asks only for queued. */
  predicate EligibleFor(agentId: Option<string>, t: Task) {
    && t.status == Queued
    && (Present(agentId) ==> t.assignedAgent.None? || t.assignedAgent == agentId)
  }

  function Eligible(agentId: Option<string>): Task -> bool {
    t => EligibleFor(agentId, t)
  }

  function NextQueued(tasks: seq<Task>, agentId: Option<string>): Option<Task> {
    var r := Select(tasks, Eligible(agentId), PriorityKey, 1);
    if |r| == 0 then None else Some(r[0])
  }

  /**
   * `getNextQueuedTask` finds nothing exactly when no row is eligible, and
   * otherwise an eligible row that no other eligible row precedes in
   * priority-then-age order.
   */
  lemma {:induction false} NextQueuedSpec(tasks: seq<Task>, agentId: Option<string>)
    ensures NextQueued(tasks, agentId).None? <==> forall i :: 0 <= i < |tasks| ==> !EligibleFor(agentId, tasks[i])
    ensures NextQueued(tasks, agentId).Some? ==>
      var t := NextQueued(tasks, agentId).value;
      && t in tasks && EligibleFor(agentId, t)
      && forall u :: u in tasks && EligibleFor(agentId, u) ==> KeyLe(PriorityKey(t), PriorityKey(u))
  {
    var p := Eligible(agentId);
    var f := Filter(tasks, p);
    var sorted := SortBy(f, PriorityKey);
    assert Select(tasks, p, PriorityKey, 1) == Limit(sorted, 1);
    if exists i :: 0 <= i < |tasks| && EligibleFor(agentId, tasks[i]) {
      var i :| 0 <= i < |tasks| && EligibleFor(agentId, tasks[i]);
      assert p(tasks[i]);
      assert tasks[i] in f;
    }
    if |f| > 0 {
      assert sorted[0] in multiset(f);
      forall u | u in tasks && EligibleFor(agentId, u)
        ensures KeyLe(PriorityKey(sorted[0]), PriorityKey(u))
      {
        assert p(u);
        assert u in f;
        assert u in multiset(sorted);
        var k :| 0 <= k < |sorted| && sorted[k] == u;
      }
    }
  }

  // ─── Statistics ────────────────────────────────────────

  datatype TaskStats = TaskStats(total: nat, completed: nat, failed: nat, running: nat, queued: nat)

  function CountStatus(tasks: seq<Task>, s: TaskStatus): nat {
    if |tasks| == 0 then 0
    else (if tasks[0].status == s then 1 else 0) + CountStatus(tasks[1..], s)
  }

  function GetTaskStats(tasks: seq<Task>): TaskStats {
    TaskStats(|tasks|, CountStatus(tasks, Completed), CountStatus(tasks, Failed),
              CountStatus(tasks, Running), CountStatus(tasks, Queued))
  }

  /** The eight per-status counts partition the table. */
  lemma {:induction false} CountsPartition(tasks: seq<Task>)
    ensures CountStatus(tasks, Created) + CountStatus(tasks, Queued) + CountStatus(tasks, Assigned)
          + CountStatus(tasks, Running) + CountStatus(tasks, Review) + CountStatus(tasks, Completed)
          + CountStatus(tasks, Failed) + CountStatus(tasks, Rejected) == |tasks|
  {
    if |tasks| > 0 {
      CountsPartition(tasks[1..]);
    }
  }

  /** The counts `getTaskStats` reports never exceed the total it reports. */
  lemma StatsBounded(tasks: seq<Task>)
    ensures var s := GetTaskStats(tasks);
      s.total == |tasks| && s.completed + s.failed + s.running + s.queued <= s.total
  {
    CountsPartition(tasks);
  }

  /** Replacing one row changes a status count only by the statuses that row left and entered. */
  lemma {:induction false} CountAfterReplace(tasks: seq<Task>, k: nat, t: Task, s: TaskStatus)
    requires k < |tasks|
    ensures CountStatus(tasks[k := t], s) ==
      CountStatus(tasks, s) - (if tasks[k].status == s then 1 else 0) + (if t.status == s then 1 else 0)
  {
    if k > 0 {
      assert tasks[k := t][1..] == tasks[1..][k - 1 := t];
      CountAfterReplace(tasks[1..], k - 1, t, s);
    } else {
      assert tasks[k := t][1..] == tasks[1..];
    }
  }

  // ─── Logs ──────────────────────────────────────────────

  function ForTask(taskId: nat): TaskLogEntry -> bool {
    (e: TaskLogEntry) => e.taskId == taskId
  }

  function AnyLog(e: TaskLogEntry): bool {
    true
  }

  /** ORDER BY timestamp ASC. */
  function OldestFirst(e: TaskLogEntry): Key {
    Key(e.timestamp, 0)
  }

  /** ORDER BY timestamp DESC. */
  function NewestFirst(e: TaskLogEntry): Key {
    Key(-(e.timestamp as int), 0)
  }

  /** `getTaskLogs`: one task's entries, oldest first, at most `limit`. */
  function TaskLogs(logs: seq<TaskLogEntry>, taskId: nat, limit: int := DefaultLogLimit): seq<TaskLogEntry> {
    Select(logs, ForTask(taskId), OldestFirst, limit)
  }

  /** `getRecentLogs`: every entry, newest first, at most `limit`. */
  function RecentLogs(logs: seq<TaskLogEntry>, limit: int := DefaultRecentLogLimit): seq<TaskLogEntry> {
    Select(logs, AnyLog, NewestFirst, limit)
  }

  /** `getTaskLogs` returns exactly that task's entries, oldest first, cut only by the limit. */
  lemma {:induction false} TaskLogsSpec(logs: seq<TaskLogEntry>, taskId: nat, limit: int)
    ensures var r := TaskLogs(logs, taskId, limit);
      && (forall i :: 0 <= i < |r| ==> r[i] in logs && r[i].taskId == taskId)
      && (forall i, j :: 0 <= i < j < |r| ==> r[i].timestamp <= r[j].timestamp)
      && (0 <= limit ==> |r| <= limit)
      && Answers(r, logs, ForTask(taskId), OldestFirst, limit)
  {
    SelectSpec(logs, ForTask(taskId), OldestFirst, limit);
  }

  /** `getRecentLogs` returns the newest entries, all of them when the limit does not cut. */
  lemma {:induction false} RecentLogsSpec(logs: seq<TaskLogEntry>, limit: int)
    ensures var r := RecentLogs(logs, limit);
      && (forall i :: 0 <= i < |r| ==> r[i] in logs)
      && (forall i, j :: 0 <= i < j < |r| ==> r[i].timestamp >= r[j].timestamp)
      && |r| == (if limit < 0 || |logs| <= limit then |logs| else limit)
      && Answers(r, logs, AnyLog, NewestFirst, limit)
  {
    SelectSpec(logs, AnyLog, NewestFirst, limit);
    assert Filter(logs, AnyLog) == logs by {
      FilterAll(logs, AnyLog);
    }
  }

  lemma {:induction false} FilterAll<T(!new)>(s: seq<T>, p: T -> bool)
    requires forall x :: p(x)
    ensures Filter(s, p) == s
  {
    if |s| > 0 {
      FilterAll(s[1..], p);
    }
  }

  // ─── The tables ────────────────────────────────────────

  class TaskTable {
    var tasks: seq<Task>
    var logs: seq<TaskLogEntry>

    ghost predicate Valid()
      reads this
    {
      UniqueIds(tasks)
    }

    constructor ()
      ensures Valid() && tasks == [] && logs == []
    {
      tasks := [];
      logs := [];
    }

    /** `createTask`; the id is a fresh uuid, so it names no row yet. */
    method CreateTask(input: TaskCreateInput, id: nat, now: nat) returns (t: Task)
      requires Valid() && Find(tasks, id).None?
      modifies this`tasks
      ensures Valid()
      ensures t == NewTask(input, id, now)
      ensures tasks == old(tasks) + [t] && logs == old(logs)
    {
      t := NewTask(input, id, now);
      tasks := tasks + [t];
    }

    method UpdateTaskStatus(id: nat, status: TaskStatus, extra: Extra, now: nat) returns (r: Option<Task>)
      requires Valid()
      modifies this`tasks
      ensures Valid()
      ensures r == UpdateResult(old(tasks), id, status, extra, now)
      ensures tasks == UpdateRows(old(tasks), id, status, extra, now) && logs == old(logs)
    {
      UpdateFind(tasks, id, status, extra, now, id);
      r := UpdateResult(tasks, id, status, extra, now);
      tasks := UpdateRows(tasks, id, status, extra, now);
    }

    method AddTaskLog(taskId: nat, agentId: string, level: LogLevel, message: string, data: Option<Json>,
                      id: nat, now: nat) returns (e: TaskLogEntry)
      modifies this`logs
      ensures e == TaskLogEntry(id, taskId, agentId, level, message, data, now)
      ensures logs == old(logs) + [e] && tasks == old(tasks)
    {
      e := TaskLogEntry(id, taskId, agentId, level, message, data, now);
      logs := logs + [e];
    }
  }
}
