/**
 * The shared data model of the gateway: agent and task records, tool calls
 * and their results, and the environment (clock and identifier source) that
 * the stores and the agent read.
 */
module Types {

  datatype Option<+T> = None | Some(value: T)

  /** JavaScript truthiness of an optional string: `null` and `""` are both false. */
  predicate Present(o: Option<string>) {
    o.Some? && o.value != ""
  }

  /** Serialised JSON text; its structure is not interpreted by the core. */
  type Json = string

  // ─── Agents ───────────────────────────────────────────

  datatype AgentStatus = Idle | Busy | Error | Offline

  datatype AgentDefinition = AgentDefinition(
    id: string,
    name: string,
    role: string,
    description: string,
    capabilities: seq<string>,
    modelPreference: Option<string>,
    maxConcurrentTasks: nat)

  datatype TokenUsage = TokenUsage(prompt: nat, completion: nat, total: nat)

  datatype AgentState = AgentState(
    id: nat,
    definitionId: string,
    status: AgentStatus,
    currentTaskId: Option<nat>,
    lastActivity: nat,
    tokenUsage: TokenUsage,
    errorCount: nat)

  // ─── Tasks ────────────────────────────────────────────

  datatype TaskStatus = Created | Queued | Assigned | Running | Review | Completed | Failed | Rejected

  datatype TaskType = Scheduled | Reactive | Manual | Chained

  /** 1 is the most urgent, 5 the least. */
  type Priority = p: int | 1 <= p <= 5 witness 3

  /** The two output records the core writes into a task. */
  datatype Output =
    | Completion(content: string, iterations: nat)
    | ErrorOutput(error: string)

  datatype Task = Task(
    id: nat,
    title: string,
    description: string,
    kind: TaskType,
    status: TaskStatus,
    priority: Priority,
    assignedAgent: Option<string>,
    parentTaskId: Option<nat>,
    input: map<string, Json>,
    output: Option<Output>,
    requiresApproval: bool,
    createdAt: nat,
    startedAt: Option<nat>,
    completedAt: Option<nat>)

  datatype TaskCreateInput = TaskCreateInput(
    title: string,
    description: string,
    kind: TaskType,
    priority: Option<Priority>,
    assignedAgent: Option<string>,
    parentTaskId: Option<nat>,
    input: Option<map<string, Json>>,
    requiresApproval: Option<bool>)

  datatype LogLevel = Info | Warn | ErrorLevel | Debug

  datatype TaskLogEntry = TaskLogEntry(
    id: nat,
    taskId: nat,
    agentId: string,
    level: LogLevel,
    message: string,
    data: Option<Json>,
    timestamp: nat)

  // ─── Tools ────────────────────────────────────────────

  datatype ToolDefinition = ToolDefinition(name: string, description: string, parameters: Json)

  datatype ToolCall = ToolCall(id: string, name: string, arguments: Json)

  /** A result value or an error message, never both, for one call id. */
  datatype ToolResult =
    | Returned(callId: string, result: Json)
    | Raised(callId: string, error: string)

  // ─── Environment ──────────────────────────────────────

  /**
   * The clock and the uuid source the source reads ambiently. Every reading
   * of the clock advances it by one unit, so timestamps are strictly
   * increasing; identifiers are handed out from a counter, so no two are equal.
   */
  class Env {
    var clock: nat
    var minted: nat

    constructor (start: nat)
      ensures clock == start && minted == 0
    {
      clock := start;
      minted := 0;
    }

    method Now() returns (t: nat)
      modifies this
      ensures t == old(clock) + 1 && clock == t && minted == old(minted)
    {
      clock := clock + 1;
      t := clock;
    }

    method Uuid() returns (u: nat)
      modifies this
      ensures u == old(minted) && minted == u + 1 && clock == old(clock)
    {
      u := minted;
      minted := minted + 1;
    }
  }
}
