/**
 * One agent: its status and counters, its tools and listeners, and the run
 * of a task, proved to follow the loop of module AgentLoop.
 */
module Agents {
  import opened Types
  import opened Text
  import opened Ordering
  import opened TaskStore
  import opened MemoryStore
  import opened AgentLoop

  datatype AgentEvent =
    | StatusChanged(agent: AgentState)
    | TaskLogged(entry: TaskLogEntry)
    | Thinking(agent: AgentState, content: string)
    | TaskCompleted(task: Task, agent: AgentState)
    | TaskFailed(task: Task, error: string, agent: AgentState)

  /** A subscriber: the coordinator's forwarding listener, or another one told apart by a number. */
  datatype Listener = Relay | Subscriber(n: nat)

  /** One event handed to one listener. */
  datatype Delivery = Delivery(listener: Listener, event: AgentEvent)

  // ─── Reading back what a run left ──────────────────────

  function KindOf(e: AgentEvent): EventKind {
    match e
    case StatusChanged(a) => StatusKind(a.status)
    case TaskLogged(_) => LogKind
    case Thinking(_, content) => ThinkingKind(content)
    case TaskCompleted(_, _) => CompletedKind
    case TaskFailed(_, err, _) => FailedKind(err)
  }

  function KindsOf(es: seq<AgentEvent>): seq<EventKind>
    decreases |es|
  {
    if |es| == 0 then [] else KindsOf(es[..|es| - 1]) + [KindOf(es[|es| - 1])]
  }

  function NoteOf(e: TaskLogEntry): Note {
    Note(e.taskId, e.agentId, e.level, e.message, e.data)
  }

  function NotesOf(logs: seq<TaskLogEntry>): seq<Note>
    decreases |logs|
  {
    if |logs| == 0 then [] else NotesOf(logs[..|logs| - 1]) + [NoteOf(logs[|logs| - 1])]
  }

  /** The entries carried by the `task_log` events among `es`, in order. */
  function LoggedEntries(es: seq<AgentEvent>): seq<TaskLogEntry>
    decreases |es|
  {
    if |es| == 0 then []
    else LoggedEntries(es[..|es| - 1]) + (if es[|es| - 1].TaskLogged? then [es[|es| - 1].entry] else [])
  }

  function ToAll(ls: seq<Listener>, e: AgentEvent): (r: seq<Delivery>)
    ensures |r| == |ls|
    ensures forall i :: 0 <= i < |ls| ==> r[i] == Delivery(ls[i], e)
  {
    seq(|ls|, i requires 0 <= i < |ls| => Delivery(ls[i], e))
  }

  /** Every event of `es` handed to every listener of `ls`, event by event. */
  function Fanout(ls: seq<Listener>, es: seq<AgentEvent>): seq<Delivery>
    decreases |es|
  {
    if |es| == 0 then [] else Fanout(ls, es[..|es| - 1]) + ToAll(ls, es[|es| - 1])
  }

  /**
   * Since the marks `l0`, `e0`, `d0`: the new log rows read back as `notes`,
   * the new events have the kinds `kinds`, the `task_log` events carry exactly
   * the new rows, and every new event went to every listener.
   */
  predicate Tracked(logs: seq<TaskLogEntry>, events: seq<AgentEvent>, delivered: seq<Delivery>, ls: seq<Listener>,
                    l0: seq<TaskLogEntry>, e0: seq<AgentEvent>, d0: seq<Delivery>,
                    notes: seq<Note>, kinds: seq<EventKind>)
  {
    && |l0| <= |logs| && logs[..|l0|] == l0 && NotesOf(logs[|l0|..]) == notes
    && |e0| <= |events| && events[..|e0|] == e0 && KindsOf(events[|e0|..]) == kinds
    && LoggedEntries(events[|e0|..]) == logs[|l0|..]
    && delivered == d0 + Fanout(ls, events[|e0|..])
  }

  lemma TrackedStart(logs: seq<TaskLogEntry>, events: seq<AgentEvent>, delivered: seq<Delivery>, ls: seq<Listener>)
    ensures Tracked(logs, events, delivered, ls, logs, events, delivered, [], [])
  {
    assert logs[|logs|..] == [] && events[|events|..] == [];
  }

  /** Emitting an event other than a log event adds its kind and its deliveries. */
  lemma TrackedEmit(logs: seq<TaskLogEntry>, events: seq<AgentEvent>, delivered: seq<Delivery>, ls: seq<Listener>,
                    l0: seq<TaskLogEntry>, e0: seq<AgentEvent>, d0: seq<Delivery>,
                    notes: seq<Note>, kinds: seq<EventKind>, e: AgentEvent)
    requires Tracked(logs, events, delivered, ls, l0, e0, d0, notes, kinds) && !e.TaskLogged?
    ensures Tracked(logs, events + [e], delivered + ToAll(ls, e), ls, l0, e0, d0, notes, kinds + [KindOf(e)])
  {
    var added := events[|e0|..];
    assert (events + [e])[|e0|..] == added + [e];
    assert (added + [e])[..|added|] == added;
    assert (events + [e])[..|e0|] == e0;
  }

  /** Logging a row adds its note, a log event carrying it and the event's deliveries. */
  lemma TrackedLog(logs: seq<TaskLogEntry>, events: seq<AgentEvent>, delivered: seq<Delivery>, ls: seq<Listener>,
                   l0: seq<TaskLogEntry>, e0: seq<AgentEvent>, d0: seq<Delivery>,
                   notes: seq<Note>, kinds: seq<EventKind>, en: TaskLogEntry)
    requires Tracked(logs, events, delivered, ls, l0, e0, d0, notes, kinds)
    ensures Tracked(logs + [en], events + [TaskLogged(en)], delivered + ToAll(ls, TaskLogged(en)), ls, l0, e0, d0,
                    notes + [NoteOf(en)], kinds + [LogKind])
  {
    var added := events[|e0|..];
    var rows := logs[|l0|..];
    assert (events + [TaskLogged(en)])[|e0|..] == added + [TaskLogged(en)];
    assert (added + [TaskLogged(en)])[..|added|] == added;
    assert (events + [TaskLogged(en)])[..|e0|] == e0;
    assert (logs + [en])[|l0|..] == rows + [en];
    assert (rows + [en])[..|rows|] == rows;
    assert (logs + [en])[..|l0|] == l0;
  }

  // ─── Tools ─────────────────────────────────────────────

  /** The tool map and its insertion order agree: each registered name once, under its own name. */
  predicate ToolsValid(tools: map<string, ToolHandler>, order: seq<string>) {
    && (forall i, j :: 0 <= i < j < |order| ==> order[i] != order[j])
    && (forall n :: n in tools ==> n in order)
    && (forall i :: 0 <= i < |order| ==> order[i] in tools)
    && (forall n :: n in tools ==> tools[n].definition.name == n)
  }

  function ToolDefs(tools: map<string, ToolHandler>, order: seq<string>): (r: seq<ToolDefinition>)
    requires forall i :: 0 <= i < |order| ==> order[i] in tools
    ensures |r| == |order|
    ensures forall i :: 0 <= i < |order| ==> r[i] == tools[order[i]].definition
  {
    seq(|order|, i requires 0 <= i < |order| => tools[order[i]].definition)
  }

  /** The registration order after `registerTool(h)`: a new name is appended, a known one stays. */
  function Registered(tools: map<string, ToolHandler>, order: seq<string>, h: ToolHandler): seq<string> {
    if h.definition.name in tools then order else order + [h.definition.name]
  }

  /**
   * Registering keeps map and order in agreement; the definitions list gains
   * the new definition at the end, or has it replace the old one in place.
   */
  lemma RegisterSpec(tools: map<string, ToolHandler>, order: seq<string>, h: ToolHandler)
    requires ToolsValid(tools, order)
    ensures var n := h.definition.name;
      var t2 := tools[n := h];
      var o2 := Registered(tools, order, h);
      && ToolsValid(t2, o2)
      && (n !in tools ==> ToolDefs(t2, o2) == ToolDefs(tools, order) + [h.definition])
      && (n in tools ==> exists k :: 0 <= k < |order| && order[k] == n
                                    && ToolDefs(t2, o2) == ToolDefs(tools, order)[k := h.definition])
  {
    var n := h.definition.name;
    var t2 := tools[n := h];
    var o2 := Registered(tools, order, h);
    if n in tools {
      var k :| 0 <= k < |order| && order[k] == n;
      assert forall i :: 0 <= i < |order| && i != k ==> order[i] != n;
      assert ToolDefs(t2, o2) == ToolDefs(tools, order)[k := h.definition];
    } else {
      assert forall i :: 0 <= i < |order| ==> o2[i] == order[i] && order[i] != n;
      assert ToolDefs(t2, o2) == ToolDefs(tools, order) + [h.definition];
    }
  }

  lemma DispatchSnoc(c: Ctx, calls: seq<ToolCall>, i: nat)
    requires i < |calls|
    ensures var d := Dispatch(c, calls[..i]);
      var o := CallOne(c, calls[i]);
      Dispatch(c, calls[..i + 1]) == Dispatched(d.results + [o.result], d.notes + o.notes, d.kinds + o.kinds)
  {
    assert calls[..i + 1][..i] == calls[..i];
  }

  /** One episodic record was appended, carrying the agent, summary, outcome and options given. */
  ghost predicate Remembered(before: seq<EpisodicMemory>, after: seq<EpisodicMemory>, agentId: string,
                             summary: string, outcome: Outcome, options: EpisodicOptions)
  {
    && |after| == |before| + 1
    && after[..|before|] == before
    && var m := after[|before|];
       m == NewEpisodic(m.id, agentId, summary, outcome, options, m.createdAt)
  }

  class BaseAgent {
    const definition: AgentDefinition
    const llm: Completion
    /** `JSON.stringify(input, null, 2)`, left uninterpreted. */
    const inputJson: map<string, Json> -> string
    const store: TaskTable
    const memory: MemoryTables
    const env: Env

    var state: AgentState
    var tools: map<string, ToolHandler>
    var toolOrder: seq<string>
    var listeners: seq<Listener>
    var history: seq<ChatMessage>
    /** Every event emitted, and every hand-over of one to a listener. */
    var events: seq<AgentEvent>
    var delivered: seq<Delivery>

    /**
     * The agent belongs to its definition, is busy exactly while it has a
     * current task, and its total token count is the sum of the other two.
     */
    ghost predicate Valid()
      reads this`state, this`tools, this`toolOrder
    {
      && state.definitionId == definition.id
      && (state.status == Busy <==> state.currentTaskId.Some?)
      && state.tokenUsage.total == state.tokenUsage.prompt + state.tokenUsage.completion
      && ToolsValid(tools, toolOrder)
    }

    /** A new agent is idle, has no task, zero counters and no errors. */
    constructor (definition: AgentDefinition, llm: Completion, inputJson: map<string, Json> -> string,
                 store: TaskTable, memory: MemoryTables, env: Env)
      modifies env
      ensures Valid()
      ensures this.definition == definition && this.llm == llm && this.inputJson == inputJson
      ensures this.store == store && this.memory == memory && this.env == env
      ensures state == AgentState(old(env.minted), definition.id, Idle, None, old(env.clock) + 1, TokenUsage(0, 0, 0), 0)
      ensures env.minted == old(env.minted) + 1 && env.clock == old(env.clock) + 1
      ensures tools == map[] && toolOrder == [] && listeners == [] && history == []
      ensures events == [] && delivered == []
    {
      this.definition := definition;
      this.llm := llm;
      this.inputJson := inputJson;
      this.store := store;
      this.memory := memory;
      this.env := env;
      var id := env.Uuid();
      var now := env.Now();
      state := AgentState(id, definition.id, Idle, None, now, TokenUsage(0, 0, 0), 0);
      tools := map[];
      toolOrder := [];
      listeners := [];
      history := [];
      events := [];
      delivered := [];
    }

    // ─── Tool registration ─────────────────────────────

    /** `getToolDefinitions`: the definitions in registration order. */
    function ToolDefinitions(): seq<ToolDefinition>
      reads this`tools, this`toolOrder
      requires ToolsValid(tools, toolOrder)
    {
      ToolDefs(tools, toolOrder)
    }

    /** `registerTool`: a new name goes last; a known name keeps its place and gets the new handler. */
    method RegisterTool(handler: ToolHandler)
      requires Valid()
      modifies this`tools, this`toolOrder
      ensures Valid()
      ensures tools == old(tools)[handler.definition.name := handler]
      ensures toolOrder == Registered(old(tools), old(toolOrder), handler)
    {
      RegisterSpec(tools, toolOrder, handler);
      var name := handler.definition.name;
      if name !in tools {
        toolOrder := toolOrder + [name];
      }
      tools := tools[name := handler];
    }

    // ─── Events ────────────────────────────────────────

    /** `on`: the listener is added last; it may be added more than once. */
    method On(l: Listener)
      modifies this`listeners
      ensures listeners == old(listeners) + [l]
    {
      listeners := listeners + [l];
    }

    /** The function `on` returns: every entry equal to the listener goes, the others keep their order. */
    method Off(l: Listener)
      modifies this`listeners
      ensures listeners == Filter(old(listeners), (x: Listener) => x != l)
      ensures l !in listeners
      ensures forall x :: x != l ==> (x in listeners <==> x in old(listeners))
    {
      listeners := Filter(listeners, (x: Listener) => x != l);
    }

    /** `emit`: the event goes to every listener, in the order they were added. */
    method Emit(e: AgentEvent)
      modifies this`events, this`delivered
      ensures events == old(events) + [e]
      ensures delivered == old(delivered) + ToAll(listeners, e)
    {
      events := events + [e];
      for i := 0 to |listeners|
        invariant events == old(events) + [e]
        invariant delivered == old(delivered) + ToAll(listeners[..i], e)
      {
        assert ToAll(listeners[..i + 1], e) == ToAll(listeners[..i], e) + [Delivery(listeners[i], e)];
        delivered := delivered + [Delivery(listeners[i], e)];
      }
      assert listeners[..|listeners|] == listeners;
    }

    /** `updateStatus`: the new status and a new activity time, announced to the listeners. */
    method UpdateStatus(status: AgentStatus)
      modifies this`state, this`events, this`delivered, env
      ensures state == old(state).(status := status, lastActivity := old(env.clock) + 1)
      ensures env.clock == old(env.clock) + 1 && env.minted == old(env.minted)
      ensures events == old(events) + [StatusChanged(state)]
      ensures delivered == old(delivered) + ToAll(listeners, StatusChanged(state))
    {
      var now := env.Now();
      state := state.(status := status, lastActivity := now);
      Emit(StatusChanged(state));
    }

    /** `log`: a row in the task log, announced as a `task_log` event. */
    method Log(taskId: nat, level: LogLevel, message: string, data: Option<Json>) returns (en: TaskLogEntry)
      modifies store`logs, env, this`events, this`delivered
      ensures en.id == old(env.minted) && en.timestamp == old(env.clock) + 1
      ensures env.minted == old(env.minted) + 1 && env.clock == old(env.clock) + 1
      ensures NoteOf(en) == Note(taskId, definition.id, level, message, data)
      ensures store.logs == old(store.logs) + [en]
      ensures events == old(events) + [TaskLogged(en)]
      ensures delivered == old(delivered) + ToAll(listeners, TaskLogged(en))
    {
      var id := env.Uuid();
      var now := env.Now();
      en := store.AddTaskLog(taskId, definition.id, level, message, data, id, now);
      Emit(TaskLogged(en));
    }

    // ─── Running a task ────────────────────────────────

    /** What a run on `task` depends on, read from the agent. */
    ghost function Context(sys: SystemPrompt, taskId: nat): Ctx
      reads this`tools, this`toolOrder
      requires ToolsValid(tools, toolOrder)
    {
      Ctx(llm, sys, ToolDefinitions(), tools, taskId, definition.id)
    }

    /** The agent's fields mirror the progress `p` of a run that began in state `s0` at the marks. */
    ghost predicate Mirrors(p: Progress, s0: AgentState, l0: seq<TaskLogEntry>, e0: seq<AgentEvent>, d0: seq<Delivery>)
      reads this, store
    {
      && history == p.history
      && state == s0.(tokenUsage := p.usage)
      && Tracked(store.logs, events, delivered, listeners, l0, e0, d0, p.notes, p.kinds)
    }

    /** `Log`, seen through the marks: the row's note and a log kind are added to what the run has produced. */
    method LogTracked(taskId: nat, level: LogLevel, message: string, data: Option<Json>,
                      ghost l0: seq<TaskLogEntry>, ghost e0: seq<AgentEvent>, ghost d0: seq<Delivery>,
                      ghost notes: seq<Note>, ghost kinds: seq<EventKind>)
      returns (en: TaskLogEntry)
      requires Tracked(store.logs, events, delivered, listeners, l0, e0, d0, notes, kinds)
      modifies store`logs, env, this`events, this`delivered
      ensures en.id == old(env.minted) && en.timestamp == old(env.clock) + 1
      ensures env.minted == old(env.minted) + 1 && env.clock == old(env.clock) + 1
      ensures NoteOf(en) == Note(taskId, definition.id, level, message, data)
      ensures Tracked(store.logs, events, delivered, listeners, l0, e0, d0, notes + [NoteOf(en)], kinds + [LogKind])
    {
      ghost var logs1, events1, delivered1 := store.logs, events, delivered;
      en := Log(taskId, level, message, data);
      TrackedLog(logs1, events1, delivered1, listeners, l0, e0, d0, notes, kinds, en);
    }

    /** One tool call: logged, looked up, run; an unknown name or a throw becomes an error result. */
    method CallTool(taskId: nat, call: ToolCall, ghost c: Ctx,
                    ghost l0: seq<TaskLogEntry>, ghost e0: seq<AgentEvent>, ghost d0: seq<Delivery>,
                    ghost notes: seq<Note>, ghost kinds: seq<EventKind>)
      returns (result: ToolResult)
      requires c.tools == tools && c.taskId == taskId && c.agentId == definition.id
      requires Tracked(store.logs, events, delivered, listeners, l0, e0, d0, notes, kinds)
      modifies store`logs, env, this`events, this`delivered
      ensures old(env.clock) < env.clock && old(env.minted) < env.minted
      ensures result == CallOne(c, call).result
      ensures Tracked(store.logs, events, delivered, listeners, l0, e0, d0,
                      notes + CallOne(c, call).notes, kinds + CallOne(c, call).kinds)
    {
      var en := LogTracked(taskId, Info, "Calling tool: " + call.name, Some(ArgsData(call.arguments)), l0, e0, d0, notes, kinds);
      ghost var calling := NoteOf(en);
      if call.name !in tools {
        result := Raised(call.id, "Unknown tool: " + call.name);
        assert CallOne(c, call) == CallOutcome(result, [calling], [LogKind]);
      } else {
        var outcome := tools[call.name].execute(call.arguments);
        match outcome
        case Value(v) =>
          result := Returned(call.id, v);
          assert CallOne(c, call) == CallOutcome(result, [calling], [LogKind]);
        case Throws(msg) =>
          result := Raised(call.id, msg);
          var en2 := LogTracked(taskId, ErrorLevel, "Tool " + call.name + " failed: " + msg, None,
                                l0, e0, d0, notes + [calling], kinds + [LogKind]);
          assert CallOne(c, call) == CallOutcome(result, [calling, NoteOf(en2)], [LogKind, LogKind]);
          assert notes + [calling] + [NoteOf(en2)] == notes + [calling, NoteOf(en2)];
          assert kinds + [LogKind] + [LogKind] == kinds + [LogKind, LogKind];
      }
    }

    /** The call at `i`, seen as one more step of `Dispatch`. */
    method DispatchNext(taskId: nat, calls: seq<ToolCall>, i: nat, ghost c: Ctx,
                        ghost l0: seq<TaskLogEntry>, ghost e0: seq<AgentEvent>, ghost d0: seq<Delivery>,
                        ghost notes: seq<Note>, ghost kinds: seq<EventKind>)
      returns (result: ToolResult)
      requires i < |calls| && c.tools == tools && c.taskId == taskId && c.agentId == definition.id
      requires Tracked(store.logs, events, delivered, listeners, l0, e0, d0,
                       notes + Dispatch(c, calls[..i]).notes, kinds + Dispatch(c, calls[..i]).kinds)
      modifies store`logs, env, this`events, this`delivered
      ensures old(env.clock) < env.clock && old(env.minted) < env.minted
      ensures Dispatch(c, calls[..i + 1]).results == Dispatch(c, calls[..i]).results + [result]
      ensures Tracked(store.logs, events, delivered, listeners, l0, e0, d0,
                      notes + Dispatch(c, calls[..i + 1]).notes, kinds + Dispatch(c, calls[..i + 1]).kinds)
    {
      ghost var before := Dispatch(c, calls[..i]);
      DispatchSnoc(c, calls, i);
      result := CallTool(taskId, calls[i], c, l0, e0, d0, notes + before.notes, kinds + before.kinds);
      ghost var o := CallOne(c, calls[i]);
      assert notes + before.notes + o.notes == notes + (before.notes + o.notes);
      assert kinds + before.kinds + o.kinds == kinds + (before.kinds + o.kinds);
    }

    /** The tool calls of one response, one after the other. */
    method DispatchTools(taskId: nat, calls: seq<ToolCall>, ghost sys: SystemPrompt,
                         ghost l0: seq<TaskLogEntry>, ghost e0: seq<AgentEvent>, ghost d0: seq<Delivery>,
                         ghost notes: seq<Note>, ghost kinds: seq<EventKind>)
      returns (results: seq<ToolResult>)
      requires ToolsValid(tools, toolOrder)
      requires Tracked(store.logs, events, delivered, listeners, l0, e0, d0, notes, kinds)
      modifies store`logs, env, this`events, this`delivered
      ensures old(env.clock) <= env.clock && old(env.minted) <= env.minted
      ensures var d := Dispatch(Context(sys, taskId), calls);
        && results == d.results
        && Tracked(store.logs, events, delivered, listeners, l0, e0, d0, notes + d.notes, kinds + d.kinds)
    {
      ghost var c := Context(sys, taskId);
      results := [];
      assert calls[..0] == [];
      assert notes + [] == notes && kinds + [] == kinds;
      for i := 0 to |calls|
        invariant results == Dispatch(c, calls[..i]).results
        invariant Tracked(store.logs, events, delivered, listeners, l0, e0, d0,
                          notes + Dispatch(c, calls[..i]).notes, kinds + Dispatch(c, calls[..i]).kinds)
        invariant old(env.clock) <= env.clock && old(env.minted) <= env.minted
      {
        var r := DispatchNext(taskId, calls, i, c, l0, e0, d0, notes, kinds);
        results := results + [r];
      }
      assert calls[..|calls|] == calls;
    }

    /** `emit`, seen through the marks: the event's kind is added to what the run has produced. */
    method EmitTracked(e: AgentEvent,
                       ghost l0: seq<TaskLogEntry>, ghost e0: seq<AgentEvent>, ghost d0: seq<Delivery>,
                       ghost notes: seq<Note>, ghost kinds: seq<EventKind>)
      requires !e.TaskLogged?
      requires Tracked(store.logs, events, delivered, listeners, l0, e0, d0, notes, kinds)
      modifies this`events, this`delivered
      ensures events == old(events) + [e]
      ensures Tracked(store.logs, events, delivered, listeners, l0, e0, d0, notes, kinds + [KindOf(e)])
    {
      ghost var events1, delivered1 := events, delivered;
      Emit(e);
      TrackedEmit(store.logs, events1, delivered1, listeners, l0, e0, d0, notes, kinds, e);
    }

    /** `updateStatus`, seen through the marks: a status kind is added to what the run has produced. */
    method StatusTracked(status: AgentStatus,
                         ghost l0: seq<TaskLogEntry>, ghost e0: seq<AgentEvent>, ghost d0: seq<Delivery>,
                         ghost notes: seq<Note>, ghost kinds: seq<EventKind>)
      requires Tracked(store.logs, events, delivered, listeners, l0, e0, d0, notes, kinds)
      modifies this`state, this`events, this`delivered, env
      ensures state == old(state).(status := status, lastActivity := old(env.clock) + 1)
      ensures env.clock == old(env.clock) + 1 && env.minted == old(env.minted)
      ensures Tracked(store.logs, events, delivered, listeners, l0, e0, d0, notes, kinds + [StatusKind(status)])
    {
      ghost var events1, delivered1 := events, delivered;
      UpdateStatus(status);
      TrackedEmit(store.logs, events1, delivered1, listeners, l0, e0, d0, notes, kinds, StatusChanged(state));
    }

    /** The tokens of a response are counted; a non-empty content becomes the final content and is announced and logged. */
    method AbsorbResponse(taskId: nat, r: LlmResponse, finalContent: string, ghost c: Ctx, ghost s0: AgentState,
                          ghost l0: seq<TaskLogEntry>, ghost e0: seq<AgentEvent>, ghost d0: seq<Delivery>,
                          ghost p: Progress)
      returns (content: string)
      requires c.taskId == taskId && c.agentId == definition.id
      requires Mirrors(p, s0, l0, e0, d0) && finalContent == p.finalContent
      modifies this`state, store`logs, env, this`events, this`delivered
      ensures old(env.clock) <= env.clock && old(env.minted) <= env.minted
      ensures Mirrors(Absorb(c, p, r), s0, l0, e0, d0)
      ensures content == Absorb(c, p, r).finalContent
    {
      ghost var q := Absorb(c, p, r);
      state := state.(tokenUsage := AddUsage(state.tokenUsage, r));
      content := finalContent;
      if r.content != "" {
        content := r.content;
        EmitTracked(Thinking(state, r.content), l0, e0, d0, p.notes, p.kinds);
        var en := LogTracked(taskId, Debug, "Agent thinking: " + Prefix(r.content, 200), None,
                             l0, e0, d0, p.notes, p.kinds + [ThinkingKind(r.content)]);
        assert p.kinds + [ThinkingKind(r.content)] + [LogKind] == q.kinds;
      }
    }

    /** One pass of the loop body, as `Step` says: the call of the service, the response absorbed, the tools run. */
    method Iterate(taskId: nat, sys: SystemPrompt, finalContent: string, ghost s0: AgentState,
                   ghost l0: seq<TaskLogEntry>, ghost e0: seq<AgentEvent>, ghost d0: seq<Delivery>,
                   ghost p: Progress)
      returns (crashed: Option<string>, stop: bool, content: string, ghost next: StepResult)
      requires ToolsValid(tools, toolOrder)
      requires Mirrors(p, s0, l0, e0, d0) && finalContent == p.finalContent
      modifies this`state, this`history, store`logs, env, this`events, this`delivered
      ensures old(env.clock) <= env.clock && old(env.minted) <= env.minted
      ensures next == Step(Context(sys, taskId), p)
      ensures Mirrors(next.next, s0, l0, e0, d0)
      ensures crashed == (if next.Crash? then Some(next.error) else None)
      ensures stop == next.Stop? && content == next.next.finalContent
    {
      ghost var c := Context(sys, taskId);
      ghost var p1 := p.(iteration := p.iteration + 1);
      var answer := llm(sys, history, ToolDefinitions());
      match answer
      case Threw(msg) =>
        crashed, stop, content := Some(msg), false, finalContent;
        next := Crash(p1, msg);
      case Responded(r) =>
        crashed := None;
        content := AbsorbResponse(taskId, r, finalContent, c, s0, l0, e0, d0, p1);
        ghost var q := Absorb(c, p1, r);
        stop := |r.toolCalls| == 0;
        if stop {
          next := Stop(q);
        } else {
          var results := DispatchTools(taskId, r.toolCalls, sys, l0, e0, d0, q.notes, q.kinds);
          history := history + Turns(r, results);
          ghost var d := Dispatch(c, r.toolCalls);
          next := Continue(q.(history := q.history + Turns(r, d.results), notes := q.notes + d.notes, kinds := q.kinds + d.kinds));
        }
    }

    /**
     * The `while` loop of `executeTask`: it ends as `Loop` says, with the
     * crash message when the service threw, and the fields mirror the
     * progress the loop ends with.
     */
    method RunLoop(taskId: nat, sys: SystemPrompt, ghost s0: AgentState,
                   ghost l0: seq<TaskLogEntry>, ghost e0: seq<AgentEvent>, ghost d0: seq<Delivery>,
                   ghost p0: Progress)
      returns (crashed: Option<string>, finalContent: string, iteration: nat, ghost e: LoopEnd)
      requires ToolsValid(tools, toolOrder)
      requires p0.iteration == 0 && p0.finalContent == ""
      requires Mirrors(p0, s0, l0, e0, d0)
      modifies this`state, this`history, store`logs, env, this`events, this`delivered
      ensures old(env.clock) <= env.clock && old(env.minted) <= env.minted
      ensures e == Loop(Context(sys, taskId), p0)
      ensures Mirrors(e.last, s0, l0, e0, d0)
      ensures crashed == (if e.Crashed? then Some(e.error) else None)
      ensures finalContent == e.last.finalContent && iteration == e.last.iteration
    {
      ghost var c := Context(sys, taskId);
      ghost var p := p0;
      crashed := None;
      finalContent := "";
      iteration := 0;
      while iteration < MaxIterations
        invariant Mirrors(p, s0, l0, e0, d0)
        invariant iteration == p.iteration <= MaxIterations && finalContent == p.finalContent
        invariant Loop(c, p) == Loop(c, p0) && crashed.None?
        invariant old(env.clock) <= env.clock && old(env.minted) <= env.minted
        decreases MaxIterations - iteration
      {
        iteration := iteration + 1;
        var stop;
        ghost var next;
        crashed, stop, finalContent, next := Iterate(taskId, sys, finalContent, s0, l0, e0, d0, p);
        if crashed.Some? {
          e := Crashed(next.next, next.error);
          return;
        }
        if stop {
          e := Finished(next.next);
          return;
        }
        p := next.next;
      }
      e := Finished(p);
    }

    /** The part of `executeTask` before the loop: the task taken, the status announced, the prompt and the first message built, the start logged. */
    method BeginTask(task: Task) returns (sys: SystemPrompt, ghost s0: AgentState, ghost p0: Progress)
      requires ToolsValid(tools, toolOrder)
      modifies this`state, this`history, store`logs, env, this`events, this`delivered
      ensures old(env.clock) < env.clock && old(env.minted) < env.minted
      ensures sys == SystemPrompt(definition, SearchSemantic(memory.semantic, task.title, None, PromptMemories))
      ensures p0 == Start(Context(sys, task.id), task, inputJson(task.input), old(state.tokenUsage))
      ensures s0 == old(state).(currentTaskId := Some(task.id), status := Busy, lastActivity := s0.lastActivity)
      ensures Mirrors(p0, s0, old(store.logs), old(events), old(delivered))
    {
      ghost var l0, e0, d0 := store.logs, events, delivered;
      TakeTask(task.id);
      s0 := state;
      history := [];
      var memories := SearchSemantic(memory.semantic, task.title, None, PromptMemories);
      sys := SystemPrompt(definition, memories);
      history := history + [ChatMessage(User, TaskMessage(task, inputJson(task.input)))];
      var en := LogTracked(task.id, Info, "Starting task: " + task.title, None, l0, e0, d0, [], [StatusKind(Busy)]);
      p0 := Start(Context(sys, task.id), task, inputJson(task.input), state.tokenUsage);
      assert [] + [NoteOf(en)] == p0.notes;
      assert [StatusKind(Busy)] + [LogKind] == p0.kinds;
    }

    /** The first steps of `executeTask`: the task becomes current and the agent busy, which is announced. */
    method TakeTask(taskId: nat)
      modifies this`state, env, this`events, this`delivered
      ensures env.clock == old(env.clock) + 1 && env.minted == old(env.minted)
      ensures state == old(state).(currentTaskId := Some(taskId), status := Busy, lastActivity := old(env.clock) + 1)
      ensures Tracked(store.logs, events, delivered, listeners, store.logs, old(events), old(delivered), [], [StatusKind(Busy)])
    {
      TrackedStart(store.logs, events, delivered, listeners);
      state := state.(currentTaskId := Some(taskId));
      StatusTracked(Busy, store.logs, old(events), old(delivered), [], []);
    }

    /** The success path of `executeTask` after the loop: remembered, idle, logged, announced. */
    method Succeed(task: Task, finalContent: string, iteration: nat,
                   ghost l0: seq<TaskLogEntry>, ghost e0: seq<AgentEvent>, ghost d0: seq<Delivery>,
                   ghost notes: seq<Note>, ghost kinds: seq<EventKind>)
      requires Tracked(store.logs, events, delivered, listeners, l0, e0, d0, notes, kinds)
      modifies this`state, memory`episodic, store`logs, env, this`events, this`delivered
      ensures old(env.clock) < env.clock && old(env.minted) < env.minted
      ensures Tracked(store.logs, events, delivered, listeners, l0, e0, d0,
                      notes + [Note(task.id, definition.id, Info, "Task completed after " + NatToString(iteration) + " iterations", None)],
                      kinds + [StatusKind(Idle), LogKind, CompletedKind])
      ensures events[|events| - 1] == TaskCompleted(task, state)
      ensures state == old(state).(currentTaskId := None, status := Idle, lastActivity := state.lastActivity)
      ensures Remembered(old(memory.episodic), memory.episodic, definition.id,
                         "Completed task \"" + task.title + "\": " + Prefix(finalContent, 500), Success,
                         EpisodicOptions(Some(task.id), Some(InputContext(task.input)), Some("")))
    {
      var id := env.Uuid();
      var now := env.Now();
      var m := memory.CreateEpisodicMemory(definition.id, "Completed task \"" + task.title + "\": " + Prefix(finalContent, 500),
                                           Success, EpisodicOptions(Some(task.id), Some(InputContext(task.input)), Some("")), id, now);
      state := state.(currentTaskId := None);
      StatusTracked(Idle, l0, e0, d0, notes, kinds);
      var en := LogTracked(task.id, Info, "Task completed after " + NatToString(iteration) + " iterations", None,
                           l0, e0, d0, notes, kinds + [StatusKind(Idle)]);
      EmitTracked(TaskCompleted(task, state), l0, e0, d0, notes + [NoteOf(en)], kinds + [StatusKind(Idle)] + [LogKind]);
      assert kinds + [StatusKind(Idle)] + [LogKind] + [CompletedKind] == kinds + [StatusKind(Idle), LogKind, CompletedKind];
    }

    /** The failure path of `executeTask`: one error more, in error, logged, remembered, announced. */
    method Fail(task: Task, msg: string,
                ghost l0: seq<TaskLogEntry>, ghost e0: seq<AgentEvent>, ghost d0: seq<Delivery>,
                ghost notes: seq<Note>, ghost kinds: seq<EventKind>)
      requires Tracked(store.logs, events, delivered, listeners, l0, e0, d0, notes, kinds)
      modifies this`state, memory`episodic, store`logs, env, this`events, this`delivered
      ensures old(env.clock) < env.clock && old(env.minted) < env.minted
      ensures Tracked(store.logs, events, delivered, listeners, l0, e0, d0,
                      notes + [Note(task.id, definition.id, ErrorLevel, "Task failed: " + msg, None)],
                      kinds + [StatusKind(Error), LogKind, FailedKind(msg)])
      ensures events[|events| - 1] == TaskFailed(task, msg, state)
      ensures state == old(state).(currentTaskId := None, status := Error, errorCount := old(state.errorCount) + 1,
                                   lastActivity := state.lastActivity)
      ensures Remembered(old(memory.episodic), memory.episodic, definition.id,
                         "Failed task \"" + task.title + "\": " + msg, FailedOutcome,
                         EpisodicOptions(Some(task.id), Some(ErrorContext(msg)), Some(msg)))
    {
      state := state.(errorCount := state.errorCount + 1, currentTaskId := None);
      StatusTracked(Error, l0, e0, d0, notes, kinds);
      var en := LogTracked(task.id, ErrorLevel, "Task failed: " + msg, None, l0, e0, d0, notes, kinds + [StatusKind(Error)]);
      var id := env.Uuid();
      var now := env.Now();
      var m := memory.CreateEpisodicMemory(definition.id, "Failed task \"" + task.title + "\": " + msg,
                                           FailedOutcome, EpisodicOptions(Some(task.id), Some(ErrorContext(msg)), Some(msg)), id, now);
      EmitTracked(TaskFailed(task, msg, state), l0, e0, d0, notes + [NoteOf(en)], kinds + [StatusKind(Error)] + [LogKind]);
      assert kinds + [StatusKind(Error)] + [LogKind] + [FailedKind(msg)] == kinds + [StatusKind(Error), LogKind, FailedKind(msg)];
    }

    /**
     * The run `executeTask` makes of `task` for an agent whose token counts
     * stand at `usage`: with this agent's service and tools, and the prompt
     * built from its definition and the memories the task's title finds.
     */
    ghost function RunOf(task: Task, usage: TokenUsage): RunResult
      reads this`tools, this`toolOrder, memory`semantic
      requires ToolsValid(tools, toolOrder)
    {
      var sys := SystemPrompt(definition, SearchSemantic(memory.semantic, task.title, None, PromptMemories));
      Run(Context(sys, task.id), task, inputJson(task.input), usage)
    }

    /**
     * How a run of `executeTask` on `task` left the agent that was in state
     * `st0`, with the log rows `l0`, events `e0`, deliveries `d0` and
     * episodic records `m0` before it: the run went as `Run` says;
     * afterwards the agent has no task and is idle (or in error, one error
     * more), its token counts include every response, each log row and event
     * of the run is where `Run` puts it, the last event announces the
     * outcome, and one episodic record describes the run.
     */
    ghost predicate Concluded(task: Task, st0: AgentState, l0: seq<TaskLogEntry>, e0: seq<AgentEvent>, d0: seq<Delivery>,
                              m0: seq<EpisodicMemory>, success: bool, output: Output)
      reads this, store, memory
      requires ToolsValid(tools, toolOrder)
    {
      var r := RunOf(task, st0.tokenUsage);
      && success == r.success && output == r.output
      && history == r.end.last.history
      && state == st0.(status := if success then Idle else Error, currentTaskId := None,
                       tokenUsage := r.end.last.usage,
                       errorCount := st0.errorCount + (if success then 0 else 1),
                       lastActivity := state.lastActivity)
      && Tracked(store.logs, events, delivered, listeners, l0, e0, d0, r.notes, r.kinds)
      && events[|events| - 1] == (if success then TaskCompleted(task, state) else TaskFailed(task, r.end.error, state))
      && var (summary, outcome, options) := Episode(task, r);
         Remembered(m0, memory.episodic, definition.id, summary, outcome, options)
    }

    /**
     * Where `executeTask` stands after its loop, for an agent that was in
     * state `st0` with the marks `l0`, `e0`, `d0`: the task taken in `s0`,
     * the prompt `sys` built from the memory, the loop ended as `e`, and the
     * fields mirroring its last progress.
     */
    ghost predicate AfterLoop(task: Task, sys: SystemPrompt, st0: AgentState, s0: AgentState,
                              l0: seq<TaskLogEntry>, e0: seq<AgentEvent>, d0: seq<Delivery>, e: LoopEnd)
      reads this, store, memory
    {
      && ToolsValid(tools, toolOrder) && st0.definitionId == definition.id
      && st0.tokenUsage.total == st0.tokenUsage.prompt + st0.tokenUsage.completion
      && s0 == st0.(currentTaskId := Some(task.id), status := Busy, lastActivity := s0.lastActivity)
      && sys == SystemPrompt(definition, SearchSemantic(memory.semantic, task.title, None, PromptMemories))
      && e == Loop(Context(sys, task.id), Start(Context(sys, task.id), task, inputJson(task.input), st0.tokenUsage))
      && Mirrors(e.last, s0, l0, e0, d0)
    }

    /** The success path after the loop, as `Run` says. */
    method Completed(task: Task, sys: SystemPrompt, finalContent: string, iteration: nat,
                     ghost st0: AgentState, ghost s0: AgentState,
                     ghost l0: seq<TaskLogEntry>, ghost e0: seq<AgentEvent>, ghost d0: seq<Delivery>,
                     ghost e: LoopEnd)
      requires AfterLoop(task, sys, st0, s0, l0, e0, d0, e) && e.Finished?
      requires finalContent == e.last.finalContent && iteration == e.last.iteration
      modifies this`state, memory`episodic, store`logs, env, this`events, this`delivered
      ensures old(env.clock) < env.clock && old(env.minted) < env.minted
      ensures Valid()
      ensures Concluded(task, st0, l0, e0, d0, old(memory.episodic), true, Completion(finalContent, iteration))
    {
      ghost var c := Context(sys, task.id);
      ghost var r := Conclude(c, e);
      assert r == RunResult(true, Completion(finalContent, iteration), e,
                            e.last.notes + [Note(task.id, definition.id, Info, "Task completed after " + NatToString(iteration) + " iterations", None)],
                            e.last.kinds + [StatusKind(Idle), LogKind, CompletedKind]);
      assert RunOf(task, st0.tokenUsage) == r;
      RunKeepsTotal(c, task, inputJson(task.input), st0.tokenUsage);
      ghost var (summary, outcome, options) := Episode(task, r);
      assert summary == "Completed task \"" + task.title + "\": " + Prefix(finalContent, 500) && outcome == Success;
      assert options == EpisodicOptions(Some(task.id), Some(InputContext(task.input)), Some(""));
      Succeed(task, finalContent, iteration, l0, e0, d0, e.last.notes, e.last.kinds);
      assert RunOf(task, st0.tokenUsage) == r;
      assert Tracked(store.logs, events, delivered, listeners, l0, e0, d0, r.notes, r.kinds);
      assert Remembered(old(memory.episodic), memory.episodic, definition.id, summary, outcome, options);
    }

    /** The failure path after the loop, as `Run` says. */
    method Failed(task: Task, sys: SystemPrompt, msg: string,
                  ghost st0: AgentState, ghost s0: AgentState,
                  ghost l0: seq<TaskLogEntry>, ghost e0: seq<AgentEvent>, ghost d0: seq<Delivery>,
                  ghost e: LoopEnd)
      requires AfterLoop(task, sys, st0, s0, l0, e0, d0, e) && e.Crashed? && msg == e.error
      modifies this`state, memory`episodic, store`logs, env, this`events, this`delivered
      ensures old(env.clock) < env.clock && old(env.minted) < env.minted
      ensures Valid()
      ensures Concluded(task, st0, l0, e0, d0, old(memory.episodic), false, ErrorOutput(msg))
    {
      ghost var c := Context(sys, task.id);
      ghost var r := Conclude(c, e);
      assert r == RunResult(false, ErrorOutput(msg), e,
                            e.last.notes + [Note(task.id, definition.id, ErrorLevel, "Task failed: " + msg, None)],
                            e.last.kinds + [StatusKind(Error), LogKind, FailedKind(msg)]);
      assert RunOf(task, st0.tokenUsage) == r;
      RunKeepsTotal(c, task, inputJson(task.input), st0.tokenUsage);
      ghost var (summary, outcome, options) := Episode(task, r);
      assert summary == "Failed task \"" + task.title + "\": " + msg && outcome == FailedOutcome;
      assert options == EpisodicOptions(Some(task.id), Some(ErrorContext(msg)), Some(msg));
      Fail(task, msg, l0, e0, d0, e.last.notes, e.last.kinds);
      assert RunOf(task, st0.tokenUsage) == r;
      assert Tracked(store.logs, events, delivered, listeners, l0, e0, d0, r.notes, r.kinds);
      assert Remembered(old(memory.episodic), memory.episodic, definition.id, summary, outcome, options);
      assert state == st0.(status := Error, currentTaskId := None, tokenUsage := e.last.usage,
                           errorCount := st0.errorCount + 1, lastActivity := state.lastActivity);
    }

    /** The part of `executeTask` after the loop: the outcome recorded, announced and logged. */
    method FinishTask(task: Task, sys: SystemPrompt, crashed: Option<string>, finalContent: string, iteration: nat,
                      ghost st0: AgentState, ghost s0: AgentState,
                      ghost l0: seq<TaskLogEntry>, ghost e0: seq<AgentEvent>, ghost d0: seq<Delivery>,
                      ghost e: LoopEnd)
      returns (success: bool, output: Output)
      requires AfterLoop(task, sys, st0, s0, l0, e0, d0, e)
      requires crashed == (if e.Crashed? then Some(e.error) else None)
      requires finalContent == e.last.finalContent && iteration == e.last.iteration
      modifies this`state, memory`episodic, store`logs, env, this`events, this`delivered
      ensures old(env.clock) < env.clock && old(env.minted) < env.minted
      ensures Valid()
      ensures success == output.Completion?
      ensures Concluded(task, st0, l0, e0, d0, old(memory.episodic), success, output)
    {
      if crashed.None? {
        success, output := true, Completion(finalContent, iteration);
        Completed(task, sys, finalContent, iteration, st0, s0, l0, e0, d0, e);
      } else {
        success, output := false, ErrorOutput(crashed.value);
        Failed(task, sys, crashed.value, st0, s0, l0, e0, d0, e);
      }
    }

    /** `executeTask`: the run is `Concluded` from the state and marks the agent had before it. */
    method ExecuteTask(task: Task) returns (success: bool, output: Output)
      requires Valid()
      modifies this`state, this`history, memory`episodic, store`logs, env, this`events, this`delivered
      ensures old(env.clock) < env.clock && old(env.minted) < env.minted
      ensures Valid()
      ensures success == output.Completion?
      ensures Concluded(task, old(state), old(store.logs), old(events), old(delivered), old(memory.episodic), success, output)
    {
      ghost var st0, l0, e0, d0 := state, store.logs, events, delivered;
      var sys, s0, p0 := BeginTask(task);
      var crashed, finalContent, iteration, e := RunLoop(task.id, sys, s0, l0, e0, d0, p0);
      success, output := FinishTask(task, sys, crashed, finalContent, iteration, st0, s0, l0, e0, d0, e);
    }
  }
}
