/**
 * The dashboard's live view of the gateway: the lists the WebSocket handler
 * keeps and how each server message updates them.
 */
module Dashboard {
  import opened Types

  /** Floating-point cost is only stored and shown. */
  datatype SystemStats = SystemStats(
    totalTasks: nat,
    completedTasks: nat,
    failedTasks: nat,
    activeAgents: nat,
    totalTokensToday: nat,
    estimatedCostToday: real)

  const DefaultStats := SystemStats(0, 0, 0, 0, 0, 0.0)

  /** Only the newest this many log entries are kept. */
  const MaxRecentLogs := 100

  datatype ViewState = ViewState(
    agents: seq<AgentState>,
    tasks: seq<Task>,
    recentLogs: seq<TaskLogEntry>,
    stats: SystemStats)

  const InitialState := ViewState([], [], [], DefaultStats)

  datatype Snapshot = Snapshot(
    agents: seq<AgentState>,
    tasks: seq<Task>,
    recentLogs: seq<TaskLogEntry>,
    stats: SystemStats)

  /** The server-to-client messages; every other message type is `Other`. */
  datatype Message =
    | StateSnapshot(snapshot: Snapshot)
    | AgentUpdated(agent: AgentState)
    | TaskUpdated(task: Task)
    | TaskLog(entry: TaskLogEntry)
    | Other(kind: string)

  /** `Array.prototype.findIndex`: the first position satisfying `p`, or -1. */
  function FindIndex<T>(s: seq<T>, p: T -> bool): (r: int)
    ensures -1 <= r < |s|
    ensures r >= 0 ==> p(s[r])
    ensures forall j :: 0 <= j < |s| && (r < 0 || j < r) ==> !p(s[j])
  {
    if |s| == 0 then -1
    else if p(s[0]) then 0
    else
      var k := FindIndex(s[1..], p);
      if k < 0 then -1 else k + 1
  }

  /** An agent entry is the same agent if its id or its definition id agrees. */
  function SameAgent(agent: AgentState): AgentState -> bool {
    (a: AgentState) => a.id == agent.id || a.definitionId == agent.definitionId
  }

  function SameTask(task: Task): Task -> bool {
    (t: Task) => t.id == task.id
  }

  /** `agent:updated`: replace the first matching entry, or append. */
  function UpsertAgent(prev: seq<AgentState>, agent: AgentState): seq<AgentState> {
    var idx := FindIndex(prev, SameAgent(agent));
    if idx >= 0 then prev[idx := agent] else prev + [agent]
  }

  /** `task:updated`: replace the first entry with the same id, or prepend. */
  function UpsertTask(prev: seq<Task>, task: Task): seq<Task> {
    var idx := FindIndex(prev, SameTask(task));
    if idx >= 0 then prev[idx := task] else [task] + prev
  }

  /** `task:log`: the entry goes first and the list is cut to its first 100. */
  function PushLog(prev: seq<TaskLogEntry>, entry: TaskLogEntry): seq<TaskLogEntry> {
    var next := [entry] + prev;
    if |next| <= MaxRecentLogs then next else next[..MaxRecentLogs]
  }

  /** The state after one message. */
  function Apply(s: ViewState, msg: Message): ViewState {
    match msg
    case StateSnapshot(snap) => ViewState(snap.agents, snap.tasks, snap.recentLogs, snap.stats)
    case AgentUpdated(a) => s.(agents := UpsertAgent(s.agents, a))
    case TaskUpdated(t) => s.(tasks := UpsertTask(s.tasks, t))
    case TaskLog(e) => s.(recentLogs := PushLog(s.recentLogs, e))
    case Other(_) => s
  }

  // ─── Properties ────────────────────────────────────────

  /** The initial view is empty and all its counters are zero. */
  lemma InitialIsEmpty()
    ensures InitialState.agents == [] && InitialState.tasks == [] && InitialState.recentLogs == []
    ensures InitialState.stats.totalTasks == 0 && InitialState.stats.completedTasks == 0
    ensures InitialState.stats.failedTasks == 0 && InitialState.stats.activeAgents == 0
    ensures InitialState.stats.totalTokensToday == 0 && InitialState.stats.estimatedCostToday == 0.0
  {
  }

  /** A snapshot replaces the whole view, whatever it held before. */
  lemma SnapshotReplaces(s: ViewState, snap: Snapshot)
    ensures var r := Apply(s, StateSnapshot(snap));
      r.agents == snap.agents && r.tasks == snap.tasks && r.recentLogs == snap.recentLogs && r.stats == snap.stats
  {
  }

  /** A matching agent entry is replaced in place: same length, the first match changes, nothing else does. */
  lemma AgentUpdateReplaces(prev: seq<AgentState>, agent: AgentState, k: nat)
    requires k < |prev| && SameAgent(agent)(prev[k])
    ensures var r := UpsertAgent(prev, agent);
      && |r| == |prev|
      && exists idx :: 0 <= idx <= k && r[idx] == agent
           && (forall j :: 0 <= j < idx ==> !SameAgent(agent)(prev[j]))
           && (forall j :: 0 <= j < |prev| && j != idx ==> r[j] == prev[j])
  {
    var idx := FindIndex(prev, SameAgent(agent));
    assert idx >= 0 && idx <= k;
    var r := UpsertAgent(prev, agent);
    assert r == prev[idx := agent];
    assert r[idx] == agent;
  }

  /** An agent no entry matches is appended: the list grows by exactly one at the end. */
  lemma AgentUpdateAppends(prev: seq<AgentState>, agent: AgentState)
    requires forall j :: 0 <= j < |prev| ==> !SameAgent(agent)(prev[j])
    ensures UpsertAgent(prev, agent) == prev + [agent]
  {
  }

  /** A known task is replaced in place; an unknown one is put first. */
  lemma TaskUpdateSpec(prev: seq<Task>, task: Task)
    ensures var r := UpsertTask(prev, task);
      && ((exists j :: 0 <= j < |prev| && prev[j].id == task.id) ==>
            |r| == |prev| && task in r
            && exists idx :: 0 <= idx < |prev| && prev[idx].id == task.id && r == prev[idx := task]
                 && forall j :: 0 <= j < idx ==> prev[j].id != task.id)
      && ((forall j :: 0 <= j < |prev| ==> prev[j].id != task.id) ==> r == [task] + prev)
  {
    var idx := FindIndex(prev, SameTask(task));
    if exists j :: 0 <= j < |prev| && prev[j].id == task.id {
      var j :| 0 <= j < |prev| && prev[j].id == task.id;
      assert SameTask(task)(prev[j]);
      assert idx >= 0;
      var r := UpsertTask(prev, task);
      assert r == prev[idx := task] && r[idx] == task;
    }
  }

  /** A log entry becomes the head; the list keeps at most 100 entries and the rest is a prefix of the old list. */
  lemma PushLogSpec(prev: seq<TaskLogEntry>, entry: TaskLogEntry)
    ensures var r := PushLog(prev, entry);
      && |r| == (if |prev| + 1 <= MaxRecentLogs then |prev| + 1 else MaxRecentLogs)
      && r[0] == entry
      && r[1..] <= prev
  {
  }

  /**
   * The list of logs never holds more than 100 entries once messages have
   * been applied to a bounded view, as long as every snapshot among them
   * carries at most 100 (the server sends the 50 most recent).
   */
  lemma {:induction false} LogBoundKept(s: ViewState, msgs: seq<Message>)
    requires |s.recentLogs| <= MaxRecentLogs
    requires forall i :: 0 <= i < |msgs| && msgs[i].StateSnapshot? ==> |msgs[i].snapshot.recentLogs| <= MaxRecentLogs
    ensures |ApplyAll(s, msgs).recentLogs| <= MaxRecentLogs
    decreases |msgs|
  {
    if |msgs| > 0 {
      LogBoundKept(Apply(s, msgs[0]), msgs[1..]);
    }
  }

  function ApplyAll(s: ViewState, msgs: seq<Message>): ViewState
    decreases |msgs|
  {
    if |msgs| == 0 then s else ApplyAll(Apply(s, msgs[0]), msgs[1..])
  }

  /** Messages of any other type leave the view as it was. */
  lemma OtherIgnored(s: ViewState, kind: string)
    ensures Apply(s, Other(kind)) == s
  {
  }
}
