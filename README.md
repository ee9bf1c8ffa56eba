# ProjectSwarm core, modelled in Dafny

ProjectSwarm is a gateway that coordinates LLM agents. A task is created through HTTP or the
WebSocket, queued, and handed by the coordinator to an idle agent whose capabilities best match it.
The agent runs an iterative loop of completion calls and tool calls, at most ten iterations, then
records the outcome in the task table, the task log and the episodic memory. A React dashboard
mirrors agents, tasks and logs from the messages the gateway broadcasts.

This project models that core and proves what it does:

| module | file | models |
|---|---|---|
| `Types` | `types.dfy` | the shared records (agents, tasks, logs, tool calls), JavaScript truthiness of optional strings, and the clock and uuid source (`Env`) |
| `Text` | `text.dfy` | ASCII case mapping, `includes`, `startsWith`, SQLite `LIKE`, number rendering, `substring` |
| `Ordering` | `ordering.dfy` | the `WHERE … ORDER BY … LIMIT` pipeline every query uses |
| `TaskStore` | `task_store.dfy` | the `tasks` and `task_logs` tables and their queries (`task-store.ts`) |
| `MemoryStore` | `memory_store.dfy` | the semantic and episodic memory tables (`memory-store.ts`) |
| `Database` | `database.dfy` | the lazily opened connection and the schema loader (`database.ts`) |
| `AgentLoop` | `agent_loop.dfy` | what one run of `executeTask` computes, as pure functions: messages, tool results, token counts, log lines, events |
| `Agents` | `agents.dfy` | the `BaseAgent` class, its methods proved to follow `AgentLoop` |
| `Coordination` | `coordinator.dfy` | the `AgentCoordinator` class: registry, agent choice, run-and-requeue, polling |
| `Server` | `server.dfy` | the task lifecycle actions of the HTTP and WebSocket handlers (create and queue, approve, reject) |
| `Dashboard` | `dashboard.dfy` | the dashboard's view state and how each server message updates it (`useWebSocket.tsx`) |

The stores are classes whose `seq` fields the methods reassign. Functions describe each query, and
lemmas state the query's guarantees. The agent and the coordinator are classes too. Their methods
follow the source statement by statement, and their contracts tie the new state to pure
specification functions (`AgentLoop.Run`, `Coordination.Pick`, `TaskStore.UpdateRows`,
`Database.Executed`).

The model makes these choices of representation:

- **Identifiers and timestamps.** uuids and ISO time stamps are natural numbers drawn from `Types.Env`.
  - Every clock reading advances the clock by one, and every method that reads the clock or mints an id ensures that neither the clock nor the id counter goes back. So time stamps are strictly increasing across calls, and no two minted ids are equal. The real millisecond clock only never goes back.
  - Methods that insert a row into a store take the new id as a parameter and require that no row has it yet. A fresh uuid guarantees this in the source.
- **External services.** The completion service is a function value `AgentLoop.Completion` that either answers or throws. A tool handler is a function from its argument text to a value or a thrown message.
- **Events and listeners.** An emitted event is recorded in `BaseAgent.events`. Each hand-over to a listener is recorded in `BaseAgent.delivered`.
- **Mutual recursion.** `runTaskOnAgent` and `checkQueue` call each other. Their termination is proved on the number of queued rows, which every run strictly lowers.

## Model

| member | source | states |
|---|---|---|
| `Types.Env.Now` | packages/gateway/src/tasks/task-store.ts:10 | a reading is one past the clock and leaves the id source alone. Since no method moves the clock back, it is later than every earlier reading |
| `Types.Env.Uuid` | packages/gateway/src/tasks/task-store.ts:9 | the identifier is the counter, which it advances, and the clock is left alone. Since no method moves the counter back, it differs from every earlier identifier |
| `Text.Lower` | packages/gateway/src/agents/coordinator.ts:84 | `toLowerCase` keeps the length and maps each character by ASCII case |
| `Text.Upper` | packages/gateway/src/db/database.ts:31 | `toUpperCase` keeps the length and maps each character by ASCII case |
| `Text.LikeContains` | packages/gateway/src/memory/memory-store.ts:56-69 | for a query without `%` or `_`, `x LIKE '%q%'` holds exactly when `q` occurs in `x` up to ASCII case, in both directions |
| `Text.PrefixPattern` | packages/gateway/src/memory/memory-store.ts:56-69 | a wildcard-free `q%` matches exactly the texts that start with `q` up to case |
| `Text.LeadingPercent` | packages/gateway/src/memory/memory-store.ts:56-69 | a leading `%` matches exactly when the rest of the pattern matches some suffix |
| `Text.NatToString` | packages/gateway/src/agents/base-agent.ts:191 | a number renders as a non-empty string of decimal digits |
| `Text.NatToStringValue` | packages/gateway/src/agents/base-agent.ts:191 | the digits' value (`Text.DecimalValue`) is the number, and a leading `0` appears only for zero itself, which renders as `0` |
| `Text.Prefix` | packages/gateway/src/agents/base-agent.ts:133 | `substring(0, n)` is a prefix of the text, of length `min(n, length)`, with lengths counted in characters (Unicode scalar values, see Left out) |
| `Ordering.Filter` | packages/gateway/src/tasks/task-store.ts:96-99 | a WHERE clause keeps exactly the rows that satisfy it, never more than there were |
| `Ordering.FilterCount` | packages/gateway/src/tasks/task-store.ts:96-99 | filtering keeps every satisfying row as often as it is stored and adds none |
| `Ordering.SortBy` | packages/gateway/src/tasks/task-store.ts:98 | ORDER BY returns a permutation of its rows that is sorted by the key |
| `Ordering.Limit` | packages/gateway/src/tasks/task-store.ts:98 | LIMIT returns a prefix of length `n`, or everything when `n` is negative or larger |
| `Ordering.SelectSound` | packages/gateway/src/tasks/task-store.ts:96-99 | every returned row is stored and satisfies the WHERE clause; the rows come in key order; there are as many as the limit allows |
| `Ordering.SelectSpec` | packages/gateway/src/tasks/task-store.ts:96-99 | a query's answer meets `Ordering.Answers`: stored rows that satisfy the WHERE clause, in key order, none more often than stored, exactly as many as the limit allows, every satisfying row when the limit does not cut, and when it cuts only rows that sort no later than every row left out |
| `Ordering.LimitKeepsSmallest` | packages/gateway/src/tasks/task-store.ts:98 | the rows the limit cuts off sort no earlier than any row kept |
| `TaskStore.NewTaskFields` | packages/gateway/src/tasks/task-store.ts:12-27 | a created task is `created`; its output, start and end times are empty; priority 3, no agent, no parent, empty input and approval required unless given |
| `TaskStore.Find` | packages/gateway/src/tasks/task-store.ts:42-46 | `getTask` returns a stored row with that id, and returns nothing exactly when no row has the id |
| `TaskStore.FindUnique` | packages/gateway/src/tasks/task-store.ts:42-46 | with distinct ids, every stored row is what its id finds |
| `TaskStore.Transition` | packages/gateway/src/tasks/task-store.ts:57-64 | the status is replaced and any status is accepted; a supplied agent or output replaces the old one; `startedAt` is set on the first move to running and kept after; `completedAt` is stamped on every move to completed or failed; nothing else changes |
| `TaskStore.UpdateRows` | packages/gateway/src/tasks/task-store.ts:66-70 | the UPDATE keeps the number, order and ids of the rows and changes no row with another id |
| `TaskStore.UpdateUnknown` | packages/gateway/src/tasks/task-store.ts:54-55 | updating an unknown id changes nothing and returns null |
| `TaskStore.UpdateFind` | packages/gateway/src/tasks/task-store.ts:48-73 | after an update the ids stay distinct, the id finds exactly the row that was returned, and every other id finds what it found before |
| `TaskStore.UpdateShrinksQueue` | packages/gateway/src/tasks/task-store.ts:48-73 | moving a row to a status other than queued never lengthens the queue, and shortens it by one when the row was queued |
| `TaskStore.StartedAtIsFirstRun` | packages/gateway/src/tasks/task-store.ts:58-63 | over any sequence of updates, `startedAt` is the time of the first move into running and is never refreshed |
| `TaskStore.CompletedAtIsLastFinish` | packages/gateway/src/tasks/task-store.ts:59-64 | over any sequence of updates, `completedAt` is the time of the last move into completed or failed, or the original value if there was none |
| `TaskStore.ListTasksSpec` | packages/gateway/src/tasks/task-store.ts:75-100 | `listTasks` returns only stored rows matching status and agent, ordered by priority then age, none more often than stored, with the length the limit (default 100, or the one given) allows; every match when they fit under that limit, and the earliest matches when it cuts |
| `TaskStore.NextQueuedSpec` | packages/gateway/src/tasks/task-store.ts:102-121 | `getNextQueuedTask` finds nothing exactly when no queued row is eligible for the agent; otherwise it finds an eligible row that no eligible row precedes in priority-then-age order |
| `TaskStore.CountsPartition` | packages/gateway/src/tasks/task-store.ts:160-179 | the eight per-status counts add up to the number of rows |
| `TaskStore.StatsBounded` | packages/gateway/src/tasks/task-store.ts:160-179 | `getTaskStats` reports the row count as total, and the other four counts never exceed it together |
| `TaskStore.CountAfterReplace` | packages/gateway/src/tasks/task-store.ts:160-179 | replacing one row changes a status count only by the status the row left and the status it entered |
| `TaskStore.TaskLogsSpec` | packages/gateway/src/tasks/task-store.ts:144-149 | `getTaskLogs` returns stored entries of that task oldest first, as many as the limit allows, all of them when it does not cut and the oldest when it does |
| `TaskStore.RecentLogsSpec` | packages/gateway/src/tasks/task-store.ts:151-156 | `getRecentLogs` returns stored entries newest first, as many as the limit allows, every entry when it does not cut and the newest when it does |
| `TaskStore.TaskTable.constructor` | packages/gateway/src/tasks/task-store.ts:7-40 | the tables start empty |
| `TaskStore.TaskTable.CreateTask` | packages/gateway/src/tasks/task-store.ts:7-40 | `createTask` appends the new row with the defaults and leaves the log alone |
| `TaskStore.TaskTable.UpdateTaskStatus` | packages/gateway/src/tasks/task-store.ts:48-73 | `updateTaskStatus` returns null for an unknown id and otherwise the updated row; the table becomes the updated rows and ids stay distinct |
| `TaskStore.TaskTable.AddTaskLog` | packages/gateway/src/tasks/task-store.ts:125-142 | `addTaskLog` appends the entry it returns and leaves the tasks alone |
| `MemoryStore.FindSemantic` | packages/gateway/src/memory/memory-store.ts:48-52 | `getSemanticMemoryById` returns a stored record with that id, and returns nothing exactly when none has it |
| `MemoryStore.MergeSemantic` | packages/gateway/src/memory/memory-store.ts:35-45 | a supplied value, confidence or category replaces the old one and an absent one is kept; id, key, source and creation time stay; the update time is refreshed |
| `MemoryStore.NewEpisodicDefaults` | packages/gateway/src/memory/memory-store.ts:110-121 | without options an episodic record has no task, an empty context and empty lessons |
| `MemoryStore.SearchSemanticSpec` | packages/gateway/src/memory/memory-store.ts:54-71 | results are stored records of the category, when one is given, whose key or value matches the query, newest update first, as many as the limit allows, every match when the limit does not cut and the newest matches when it does; for a wildcard-free query matching is case-insensitive containment |
| `MemoryStore.ListSemanticSpec` | packages/gateway/src/memory/memory-store.ts:73-86 | results are stored records of the category, when one is given, newest update first, as many as the limit allows, every such record when the limit does not cut and the newest ones when it does |
| `MemoryStore.SearchEpisodicSpec` | packages/gateway/src/memory/memory-store.ts:124-141 | results are stored records of the agent, when a non-empty name is given, whose summary or lessons match, newest first, as many as the limit allows, every match when the limit does not cut and the newest matches when it does; for a wildcard-free query matching is case-insensitive containment |
| `MemoryStore.ListEpisodicSpec` | packages/gateway/src/memory/memory-store.ts:143-156 | results are stored records of the agent, when a non-empty name is given, newest first, as many as the limit allows, every such record when the limit does not cut and the newest ones when it does |
| `MemoryStore.WithoutSemantic` | packages/gateway/src/memory/memory-store.ts:88-92 | the DELETE keeps exactly the records with another id |
| `MemoryStore.WithoutEpisodic` | packages/gateway/src/memory/memory-store.ts:158-162 | the DELETE keeps exactly the records with another id |
| `MemoryStore.FilterKeepsUnique` | packages/gateway/src/memory/memory-store.ts:88-92 | deleting keeps semantic ids distinct |
| `MemoryStore.MemoryTables.constructor` | packages/gateway/src/memory/memory-store.ts:7-24 | the tables start empty |
| `MemoryStore.MemoryTables.CreateSemanticMemory` | packages/gateway/src/memory/memory-store.ts:7-24 | a new record with the given fields and equal creation and update times is appended |
| `MemoryStore.MemoryTables.UpdateSemanticMemory` | packages/gateway/src/memory/memory-store.ts:26-46 | an unknown id returns null and changes nothing; otherwise the record is replaced in place by its merge, which is returned, and no other record changes |
| `MemoryStore.MemoryTables.DeleteSemanticMemory` | packages/gateway/src/memory/memory-store.ts:88-92 | returns true exactly when such a record existed; afterwards none exists and the others remain |
| `MemoryStore.MemoryTables.CreateEpisodicMemory` | packages/gateway/src/memory/memory-store.ts:96-122 | the record with the defaults filled in is appended and returned |
| `MemoryStore.MemoryTables.DeleteEpisodicMemory` | packages/gateway/src/memory/memory-store.ts:158-162 | returns true exactly when such a record existed; afterwards none exists and the others remain |
| `Database.Split` | packages/gateway/src/db/database.ts:25 | `split(';')` yields at least one piece, and no piece holds a separator |
| `Database.JoinSplit` | packages/gateway/src/db/database.ts:25 | joining the pieces with `;` gives the schema text back |
| `Database.SplitCount` | packages/gateway/src/db/database.ts:25 | there is one piece more than there are separators |
| `Database.TrimSpec` | packages/gateway/src/db/database.ts:26 | `trim` returns the slice left once leading and trailing white space is gone, and the result neither starts nor ends with white space |
| `Database.ExecutedSpec` | packages/gateway/src/db/database.ts:24-33 | the statements executed are exactly the trimmed pieces that are non-empty, not a comment and not a PRAGMA, each followed by `;`, in file order |
| `Database.PipelineIsPieces` | packages/gateway/src/db/database.ts:24-33 | the split, trim, filter and skip pipeline equals a piece-by-piece reading of the schema |
| `Database.CommentPieceDropped` | packages/gateway/src/db/database.ts:27 | a piece whose trimmed text starts with `--` contributes nothing, even when SQL follows the comment inside the piece |
| `Database.DbModule.constructor` | packages/gateway/src/db/database.ts:7 | no connection is open at first |
| `Database.DbModule.GetDb` | packages/gateway/src/db/database.ts:9-16 | an open connection is returned unchanged; otherwise a new connection is opened with WAL journaling and foreign keys applied, in that order |
| `Database.DbModule.Exec` | packages/gateway/src/db/database.ts:32 | the statement is appended to what the open connection has executed |
| `Database.DbModule.RunStatement` | packages/gateway/src/db/database.ts:29-33 | a PRAGMA is skipped; any other statement is executed with `;` appended |
| `Database.DbModule.RunAll` | packages/gateway/src/db/database.ts:29-33 | the loop executes exactly the statement list's non-PRAGMA statements, in order |
| `Database.DbModule.InitDb` | packages/gateway/src/db/database.ts:18-36 | afterwards a connection is open and has executed the schema's statements after anything it had executed before, opening a new connection only when none was open |
| `Database.DbModule.CloseDb` | packages/gateway/src/db/database.ts:38-43 | afterwards no connection is open |
| `Database.ReopenIsFresh` | packages/gateway/src/db/database.ts:9-43 | after a close, the next connection has executed nothing and carries a serial above the first call's and at least the number of connections opened before, so it differs from every earlier one |
| `AgentLoop.TaskMessageShape` | packages/gateway/src/agents/base-agent.ts:234-243 | the task message starts with the title line. A `Description:` line follows exactly when the description is non-empty, and then an `Input:` block with the input's JSON exactly when the input has keys. The priority and type lines come last |
| `AgentLoop.DispatchSpec` | packages/gateway/src/agents/base-agent.ts:142-164 | each tool call gives exactly one result with its id, in order: an unknown name gives `Unknown tool: <name>`, a throwing handler gives its message, a returning handler gives its value |
| `AgentLoop.AddUsage` | packages/gateway/src/agents/base-agent.ts:118-120 | prompt, completion and total grow by the response's tokens |
| `AgentLoop.Step` | packages/gateway/src/agents/base-agent.ts:108-177 | every pass of the loop body counts one iteration |
| `AgentLoop.StopKeeps` | packages/gateway/src/agents/base-agent.ts:117-139 | a response without tool calls ends the loop; the counters account for every response, and only the last response lacks tool calls |
| `AgentLoop.ContinueKeeps` | packages/gateway/src/agents/base-agent.ts:117-177 | a response with tool calls leads to the next iteration; the counters account for every response, and every response so far used tools |
| `AgentLoop.StepKeeps` | packages/gateway/src/agents/base-agent.ts:108-177 | one pass keeps the accounting: on stop, continue and throw |
| `AgentLoop.LoopSpec` | packages/gateway/src/agents/base-agent.ts:104-178 | the loop ends after at most ten iterations, by the cap, by a response without tool calls, or by a throw on the history as it then stood. The token counts and the final content account for every response. The history is the entry history followed by the transcript of the responses, and each response is the service's answer to the history as it stood before it |
| `AgentLoop.StepConverses` | packages/gateway/src/agents/base-agent.ts:108-177 | one pass calls the service on the history as it stands and appends that response's two turns when it used tools |
| `AgentLoop.Transcript` | packages/gateway/src/agents/base-agent.ts:167-177 | the responses add two turns to the history for each one that used tools |
| `AgentLoop.NoThrowFinishes` | packages/gateway/src/agents/base-agent.ts:104-178 | when the service never throws, the loop always finishes |
| `AgentLoop.RunSpec` | packages/gateway/src/agents/base-agent.ts:86-212 | a run takes 1 to 10 iterations and succeeds exactly when no call threw. The output is the last non-empty content with the iteration count, or the error. Totals stay the sum of prompt and completion. The history holds the task message and two turns per tool round, whose contents `AgentLoop.RunConversation` states. The start is logged first and the outcome announced last |
| `AgentLoop.RunConversation` | packages/gateway/src/agents/base-agent.ts:97-177 | the history of a run is the task message followed by the transcript. The `k`-th response is what the service answered to the first `1 + 2k` turns. The `k`-th tool round's assistant turn and tool-results turn are turns `1 + 2k` and `2 + 2k`. A failed run's last call threw on the history the run ended with |
| `AgentLoop.RunKeepsTotal` | packages/gateway/src/agents/base-agent.ts:118-120 | a run keeps the total token count equal to prompt plus completion |
| `AgentLoop.RunSucceedsWithoutThrows` | packages/gateway/src/agents/base-agent.ts:180-194 | a run whose service never throws succeeds |
| `Agents.ToolDefs` | packages/gateway/src/agents/base-agent.ts:60-62 | the definitions list has one entry per registered name, in registration order |
| `Agents.RegisterSpec` | packages/gateway/src/agents/base-agent.ts:56-58 | registering keeps map and order in agreement; a new name's definition goes last; a known name's definition is replaced in its old place |
| `Agents.BaseAgent.constructor` | packages/gateway/src/agents/base-agent.ts:39-52 | a new agent is idle with a fresh id, no task, zero tokens, no errors, no tools and no listeners |
| `Agents.BaseAgent.RegisterTool` | packages/gateway/src/agents/base-agent.ts:56-58 | the handler is stored under its name; a new name is appended to the order |
| `Agents.BaseAgent.On` | packages/gateway/src/agents/base-agent.ts:66-67 | the listener is added last |
| `Agents.BaseAgent.Off` | packages/gateway/src/agents/base-agent.ts:68-70 | every entry for the listener goes, and the others keep their order |
| `Agents.BaseAgent.Emit` | packages/gateway/src/agents/base-agent.ts:73-77 | the event reaches every listener, in the order the listeners were added |
| `Agents.BaseAgent.UpdateStatus` | packages/gateway/src/agents/base-agent.ts:79-82 | the status and the activity time are replaced and the new state is announced |
| `Agents.BaseAgent.Log` | packages/gateway/src/agents/base-agent.ts:245-248 | a row with the agent's id, a freshly minted id and the next clock reading is added to the task log and announced as a `task_log` event |
| `Agents.BaseAgent.CallTool` | packages/gateway/src/agents/base-agent.ts:143-163 | one tool call is logged and run as `CallOne` says; an unknown name or a throw becomes an error result, and a throw is logged too |
| `Agents.BaseAgent.DispatchNext` | packages/gateway/src/agents/base-agent.ts:143-163 | the call at position `i` is one more step of `Dispatch` |
| `Agents.BaseAgent.DispatchTools` | packages/gateway/src/agents/base-agent.ts:142-164 | the loop over tool calls returns the results `Dispatch` gives, and logs and announces what `Dispatch` says |
| `Agents.BaseAgent.AbsorbResponse` | packages/gateway/src/agents/base-agent.ts:117-134 | tokens are counted; a non-empty content becomes the final content and is announced and logged |
| `Agents.BaseAgent.Iterate` | packages/gateway/src/agents/base-agent.ts:109-177 | one pass of the loop body does what `Step` says |
| `Agents.BaseAgent.RunLoop` | packages/gateway/src/agents/base-agent.ts:104-178 | the `while` loop ends as `Loop` says, with the crash message when the service threw |
| `Agents.BaseAgent.TakeTask` | packages/gateway/src/agents/base-agent.ts:86-87 | the task becomes current, the agent turns busy at the next clock reading, and only that status change is announced |
| `Agents.BaseAgent.BeginTask` | packages/gateway/src/agents/base-agent.ts:87-101 | the agent takes the task and turns busy. The prompt is built from its definition and the ten best memories for the title. The history holds the task message alone, and the start is logged |
| `Agents.BaseAgent.Succeed` | packages/gateway/src/agents/base-agent.ts:180-194 | the agent drops the task and turns idle. The completion is remembered, logged and announced last |
| `Agents.BaseAgent.Fail` | packages/gateway/src/agents/base-agent.ts:195-211 | the agent drops the task, turns to error and counts one more error. The failure is logged, remembered and announced last |
| `Agents.BaseAgent.Completed` | packages/gateway/src/agents/base-agent.ts:180-194 | the success path leaves the agent as `Run` says, with a valid state |
| `Agents.BaseAgent.Failed` | packages/gateway/src/agents/base-agent.ts:195-211 | the failure path leaves the agent as `Run` says, with a valid state |
| `Agents.BaseAgent.FinishTask` | packages/gateway/src/agents/base-agent.ts:180-211 | success exactly when the output is a completion, and the agent concluded as `Run` says |
| `Agents.BaseAgent.ExecuteTask` | packages/gateway/src/agents/base-agent.ts:86-212 | the run goes as `Run` says. The agent ends without a task, idle, or in error with one error more. Its tokens include every response. Log rows and events are those of the run, in order, each delivered to every listener. One episodic record describes the run |
| `Coordination.ScoreSpec` | packages/gateway/src/agents/coordinator.ts:93-95 | the score counts exactly the capabilities the lower-cased title and description contain; it is zero exactly when none matches |
| `Coordination.Pick` | packages/gateway/src/agents/coordinator.ts:86-103 | the choice is an idle agent, or none |
| `Coordination.PickSpec` | packages/gateway/src/agents/coordinator.ts:86-103 | no agent is chosen exactly when none is idle; otherwise no idle agent scores higher than the chosen one, and every idle agent before it scores strictly lower |
| `Coordination.IndexOf` | packages/gateway/src/agents/coordinator.ts:36-38 | `Map.get` finds the agent registered under the id, and finds nothing exactly when no agent has that id |
| `Coordination.PutKnown` | packages/gateway/src/agents/coordinator.ts:31 | re-registering a known id replaces its entry in place: the id finds the new agent, other ids find what they found, ids stay distinct |
| `Coordination.PutNew` | packages/gateway/src/agents/coordinator.ts:31 | registering a new id appends the agent last: the id finds it there, other ids find what they found, ids stay distinct |
| `Coordination.PutSpec` | packages/gateway/src/agents/coordinator.ts:31 | after `Map.set` the id finds the new agent and every other id finds what it found before. Entries keep their order, a new id goes last, and ids stay distinct |
| `Coordination.AgentCoordinator.constructor` | packages/gateway/src/agents/coordinator.ts:14-16 | no agents, no listeners, not polling |
| `Coordination.AgentCoordinator.GetAgent` | packages/gateway/src/agents/coordinator.ts:36-38 | finds a registered agent with the id exactly when one exists |
| `Coordination.AgentCoordinator.RegisterAgent` | packages/gateway/src/agents/coordinator.ts:20-34 | a new idle agent with the forwarding listener is stored under its definition id. It takes the place of any earlier agent there, and other ids keep their agents |
| `Coordination.AgentCoordinator.Enrol` | packages/gateway/src/agents/coordinator.ts:31 | the agent is stored under its id |
| `Coordination.AgentCoordinator.NewAgent` | packages/gateway/src/agents/coordinator.ts:22-29 | the new agent is idle, shares the coordinator's service and stores, and has the forwarding listener |
| `Coordination.AgentCoordinator.GetAgentStates` | packages/gateway/src/agents/coordinator.ts:40-42 | the state of every registered agent, in registration order |
| `Coordination.AgentCoordinator.On` | packages/gateway/src/agents/coordinator.ts:46-47 | the listener is added last |
| `Coordination.AgentCoordinator.Off` | packages/gateway/src/agents/coordinator.ts:48-50 | every entry for the listener goes, and the others keep their order |
| `Coordination.AgentCoordinator.Candidates` | packages/gateway/src/agents/coordinator.ts:89-95 | one entry per registered agent, with a score for each idle one |
| `Coordination.AgentCoordinator.FindBestAgent` | packages/gateway/src/agents/coordinator.ts:82-104 | the loop returns the agent `Pick` chooses over the candidates (`Choice`) |
| `Coordination.AgentCoordinator.MarkRunning` | packages/gateway/src/agents/coordinator.ts:107-108 | the table becomes `UpdateRows` of this row to running on the agent at the next clock reading: the row gets a start time, no other row changes, and an unknown id changes nothing. The queue never grows, and shrinks when the task was queued |
| `Coordination.AgentCoordinator.Execute` | packages/gateway/src/agents/coordinator.ts:112 | the agent runs the task: the output is that of the agent's run (`Agents.BaseAgent.RunOf`) and the run concludes as `executeTask` promises; success exactly when the output is a completion; the task table and the other agents are untouched |
| `Coordination.AgentCoordinator.Record` | packages/gateway/src/agents/coordinator.ts:114-122 | the table becomes `UpdateRows` of this row at the next clock reading: success gives review when approval is required and completed otherwise, failure gives failed. The output is stored, a finish is stamped as the completion time, and no other row changes |
| `Coordination.AgentCoordinator.RunAndRecord` | packages/gateway/src/agents/coordinator.ts:112-122 | afterwards the row is assigned to the agent, started, holds the output of the agent's run, and is in review (success, approval required), completed (success) or failed (failure). The table is `UpdateRows` of this row alone, stamped with the last clock reading |
| `Coordination.AgentCoordinator.Settle` | packages/gateway/src/agents/coordinator.ts:112-125 | the row is settled on the agent with its run's output and verdict, and the queue check afterwards changes no row that was not queued |
| `Coordination.AgentCoordinator.RunTaskOnAgent` | packages/gateway/src/agents/coordinator.ts:106-126 | an unknown task changes nothing; a known one ends assigned, started, holding the output of the agent's run of the row as marked running (`RunOutput`), with the verdict that output and the approval flag call for; no other row that was not queued changes |
| `Coordination.AgentCoordinator.CheckQueue` | packages/gateway/src/agents/coordinator.ts:128-136 | when an eligible queued task exists and the agent is idle, the first one in priority-then-age order is run on it and settled with its run's output; otherwise nothing changes |
| `Coordination.AgentCoordinator.SetStatus` | packages/gateway/src/agents/coordinator.ts:60-75 | one row changes status, stamped with the next clock reading |
| `Coordination.AgentCoordinator.AssignNamed` | packages/gateway/src/agents/coordinator.ts:57-70 | an unknown named agent fails the task with `Agent <name> not found`; a busy one queues it; an idle one runs it and the row is settled with that run's output |
| `Coordination.AgentCoordinator.AssignBest` | packages/gateway/src/agents/coordinator.ts:72-79 | the agent `FindBestAgent` returns (`Choice`) runs the task and the row is settled with that run's output; when no agent is idle the task is queued |
| `Coordination.AgentCoordinator.AssignTask` | packages/gateway/src/agents/coordinator.ts:55-80 | both branches of `assignTask` as above; only the task's own row, or rows that were queued, change |
| `Coordination.AgentCoordinator.PollTick` | packages/gateway/src/agents/coordinator.ts:143-149 | up to ten queued tasks, as listed when the tick begins, are handed to `assignTask` in order; no row that was not queued changes |
| `Coordination.AgentCoordinator.StartPolling` | packages/gateway/src/agents/coordinator.ts:140-152 | the timer is set once; a second call while it is set keeps the first interval |
| `Coordination.AgentCoordinator.StopPolling` | packages/gateway/src/agents/coordinator.ts:154-159 | afterwards no timer is set |
| `Server.SubmitQueues` | packages/gateway/src/server.ts:98-99 | queuing the row just created changes only its status, and the queue grows by one |
| `Server.ApproveSpec` | packages/gateway/src/server.ts:114 | approving an unknown id changes nothing; a known row becomes completed, stamped with the time, and is what its id then finds |
| `Server.RejectSpec` | packages/gateway/src/server.ts:129 | rejecting a known row changes only its status; an unknown id changes nothing |
| `Server.RejectPathsAgree` | packages/gateway/src/server.ts:129-131 | the REST rejection (rejected, then queued) and the WebSocket rejection (queued) leave the same table; the row ends queued with its other fields kept |
| `Server.SubmitTask` | packages/gateway/src/server.ts:98-99 | the caller gets the row as created, while the table holds it queued, one more row in the queue |
| `Server.Approve` | packages/gateway/src/server.ts:114 | the row is completed and returned, or nothing is found and nothing changes |
| `Server.RejectRest` | packages/gateway/src/server.ts:129-131 | the caller gets the row as it was when rejected, while the table holds it queued again; an unknown id changes nothing |
| `Server.RejectWs` | packages/gateway/src/server.ts:262-263 | the row goes straight back to the queue and is read again; an unknown id finds nothing and changes nothing |
| `Dashboard.FindIndex` | packages/dashboard/src/hooks/useWebSocket.tsx:87-100 | `findIndex` returns the first position that satisfies the test, or -1 when none does |
| `Dashboard.InitialIsEmpty` | packages/dashboard/src/hooks/useWebSocket.tsx:20-51 | the view starts with no agents, tasks or logs and all counters zero |
| `Dashboard.SnapshotReplaces` | packages/dashboard/src/hooks/useWebSocket.tsx:76-83 | a snapshot replaces the whole view |
| `Dashboard.AgentUpdateReplaces` | packages/dashboard/src/hooks/useWebSocket.tsx:84-96 | an agent matching an entry by id or definition id replaces the first such entry in place, and nothing else changes |
| `Dashboard.AgentUpdateAppends` | packages/dashboard/src/hooks/useWebSocket.tsx:84-96 | an agent no entry matches is appended |
| `Dashboard.TaskUpdateSpec` | packages/dashboard/src/hooks/useWebSocket.tsx:97-109 | a known task replaces the first entry with its id; an unknown one is put first |
| `Dashboard.PushLogSpec` | packages/dashboard/src/hooks/useWebSocket.tsx:110-114 | a log entry becomes the head of the list, the list is cut to 100, and the rest is a prefix of the old list |
| `Dashboard.LogBoundKept` | packages/dashboard/src/hooks/useWebSocket.tsx:110-114 | after any run of messages whose snapshots carry at most 100 logs, the log list still holds at most 100 entries |
| `Dashboard.OtherIgnored` | packages/dashboard/src/hooks/useWebSocket.tsx:75-115 | a message of any other type leaves the view as it was |

## Notes on the source

- **Stale poll snapshot.** The polling tick lists the queued tasks once and then hands each of them to `assignTask` (`coordinator.ts:145-148`). A run started for an earlier entry ends with `checkQueue`, which may already have run a later entry of the same list. That task is then passed to `assignTask` again and runs a second time if an agent is idle. `PollTick` promises only what holds regardless: no row that was not queued at the start of the tick changes.
- **REST reject response.** The REST rejection answers with the row in status `rejected` while the table holds it `queued` (`server.ts:129-134`). `Server.RejectRest` states both.
- **Agent events alias the state.** In the source, an event holds the agent's state object by reference, and the token counters are increased in place. An event emitted early in a run therefore shows later counts. The model records value snapshots.
- **Comment pieces.** The schema loader drops a `;`-separated piece whose trimmed text starts with `--`. It does so even when the piece continues with SQL after the comment line (`Database.CommentPieceDropped`). The schema file is not part of this model, so whether this loses a statement is left open.
- **Agents stuck in error.** An agent whose run failed stays in status `error`: nothing sets it back to idle. `checkQueue` and `findBestAgent` skip it from then on, and a task naming it is queued indefinitely.

## Left out

- `Text.Prefix`: strings are sequences of Unicode scalar values, and the lengths of `substring` (the 200- and 500-character cuts, `base-agent.ts:133`, `:184`) are counted in them, not in UTF-16 code units. A character outside the Basic Multilingual Plane counts once here and twice in the source. So a cut that the source makes between its two code units, leaving a lone surrogate, keeps the whole character here, and a text holding such characters keeps more of them here than in the source.
- `Coordination.AgentCoordinator.AssignBest`: `assignTask` calls `findBestAgent` (`coordinator.ts:73`); the model takes the agent from `Choice`, which `FindBestAgent`'s loop is proved to return, instead of calling the loop from the assignment.
- HTTP parsing, responses, status codes, the WebSocket transport, broadcasting and reconnects: only the table changes the handlers make are modelled.
- `logAudit` (`coordinator.ts:110`, `base-agent.ts:145-148`) and `recordTokenUsage` (`base-agent.ts:122-128`): these write to tables this model does not hold.
- Asynchrony and timers: awaited calls run to completion in order, and the un-awaited `checkQueue` call runs at once. Concurrent ticks of the polling timer are not modelled; `StartPolling` records only that a timer is set and its interval.
- Exceptions thrown by the stores or by the listeners. Only the completion service and tool handlers throw in the model, and only as the source catches them.
- JSON text and `JSON.parse`/`JSON.stringify`: arguments, results and inputs are uninterpreted strings, and the task input rendering is a parameter of the agent.
- The wording of the system prompt: the model keeps the definition and the memories it is built from, and leaves out their text.
- Floating-point confidence and estimated cost are stored and returned, never computed on.
- Unicode case mapping: `toLowerCase`, `toUpperCase` and SQLite `LIKE` fold ASCII letters only.
- Ordering of rows with equal ORDER BY keys: SQLite leaves it open; the model keeps insertion order.
- `mapTaskRow` and the other row mappers: rows are stored as records, so reading back gives what was written.
- The coordinator's `definitions` map is written on registration but read nowhere. No invariant ties it to the agents.
- The coordinator's forwarding listener is the value `Relay`; what the coordinator's own listeners do with forwarded events is not modelled.
- The dashboard's `connected` flag and `sendMessage`: they depend only on the socket.
- `Agents.BaseAgent.ExecuteTask`: does not pin the agent's `lastActivity`, which depends on the clock readings of the run.
- `Coordination.AgentCoordinator.PollTick`: does not state which rows end in which status, because of the stale snapshot described above.
- `Coordination.AgentCoordinator.RunTaskOnAgent`: does not state what the following `checkQueue` runs; it states only that no row that was not queued changes.
- Ids of task rows and of semantic and episodic memory records are natural numbers handed in by the caller instead of minted by `uuid()`. `CreateTask` and `CreateSemanticMemory` require an id no row of their table has; `CreateEpisodicMemory` requires nothing, so episodic ids are distinct only when the caller (the agent, through `Env.Uuid`) makes them so.
