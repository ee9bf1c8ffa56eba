/**
 * What one run of an agent on a task computes, stated on values: the
 * messages sent to the completion service, the tool calls dispatched, the
 * token counts, the log lines written and the events emitted, iteration by
 * iteration.  The agent class in module Agents is proved to follow it.
 */
module AgentLoop {
  import opened Types
  import opened Text
  import opened MemoryStore

  // ─── The completion service ────────────────────────────

  datatype Role = User | Assistant

  datatype ChatMessage = ChatMessage(role: Role, content: string)

  datatype LlmResponse = LlmResponse(
    content: string,
    toolCalls: seq<ToolCall>,
    promptTokens: nat,
    completionTokens: nat,
    model: string,
    stopReason: string)

  /** A call of the service either answers or throws with a message. */
  datatype ChatResult = Responded(response: LlmResponse) | Threw(message: string)

  /**
   * What the system prompt is built from: the agent's definition and the
   * semantic memories that match the task's title.  Its wording is not modelled.
   */
  datatype SystemPrompt = SystemPrompt(agent: AgentDefinition, memories: seq<SemanticMemory>)

  /** How many memories go into the system prompt. */
  const PromptMemories := 10

  /** The completion service, as an oracle on everything it is sent. */
  type Completion = (SystemPrompt, seq<ChatMessage>, seq<ToolDefinition>) -> ChatResult

  // ─── Tools ─────────────────────────────────────────────

  datatype ToolOutcome = Value(result: Json) | Throws(message: string)

  datatype ToolHandler = ToolHandler(definition: ToolDefinition, execute: Json -> ToolOutcome)

  // ─── What a run leaves behind ──────────────────────────

  /** A task log line, without the identifier and time stamp the store gives it. */
  datatype Note = Note(taskId: nat, agentId: string, level: LogLevel, message: string, data: Option<Json>)

  /** The kind of an emitted event, with the parts that do not depend on the clock. */
  datatype EventKind =
    | StatusKind(status: AgentStatus)
    | LogKind
    | ThinkingKind(content: string)
    | CompletedKind
    | FailedKind(error: string)

  /** Everything a run depends on that does not change while it runs. */
  datatype Ctx = Ctx(
    chat: Completion,
    sys: SystemPrompt,
    defs: seq<ToolDefinition>,
    tools: map<string, ToolHandler>,
    taskId: nat,
    agentId: string)

  /** The state of a run between two iterations of its loop. */
  datatype Progress = Progress(
    history: seq<ChatMessage>,
    usage: TokenUsage,
    iteration: nat,
    finalContent: string,
    responses: seq<LlmResponse>,
    notes: seq<Note>,
    kinds: seq<EventKind>)

  const MaxIterations := 10

  // ─── Rendering ─────────────────────────────────────────

  /** The data logged with a tool call: `{ args: … }`, serialised. */
  function ArgsData(arguments: Json): Json {
    "{\"args\":" + arguments + "}"
  }

  function CallNames(calls: seq<ToolCall>): (r: seq<string>)
    ensures |r| == |calls|
    ensures forall i :: 0 <= i < |calls| ==> r[i] == calls[i].name
  {
    seq(|calls|, i requires 0 <= i < |calls| => calls[i].name)
  }

  /** The assistant turn recorded for an iteration that used tools. */
  function AssistantText(r: LlmResponse): string {
    if r.content != "" then r.content else "[Used tools: " + JoinWith(CallNames(r.toolCalls), ", ") + "]"
  }

  /** One line of the tool results turn; an empty error message is falsy and renders the null result. */
  function ResultLine(r: ToolResult): string {
    match r
    case Returned(id, v) => id + ": " + v
    case Raised(id, e) => id + ": " + (if e != "" then "ERROR: " + e else "null")
  }

  function ResultsText(results: seq<ToolResult>): string {
    "Tool results:\n" + JoinWith(seq(|results|, i requires 0 <= i < |results| => ResultLine(results[i])), "\n")
  }

  /** `${task.type}`. */
  function KindName(k: TaskType): string {
    match k
    case Scheduled => "scheduled"
    case Reactive => "reactive"
    case Manual => "manual"
    case Chained => "chained"
  }

  /**
   * `buildTaskMessage`: the title line, a description line when there is a
   * description, the input when it has keys (rendered by `inputJson`, the
   * two-space-indented JSON text), then priority and type.
   */
  function TaskMessage(task: Task, inputJson: string): string {
    var title := "Task: " + task.title + "\n";
    var description := if task.description != "" then "Description: " + task.description + "\n" else "";
    var input := if |task.input| > 0 then "Input:\n" + inputJson + "\n" else "";
    var tail := "\nPriority: " + NatToString(task.priority as nat) + " (1=urgent, 5=background)\n"
                + "Type: " + KindName(task.kind) + "\n";
    title + description + input + tail
  }

  /** Where each of four concatenated parts starts and what follows it. */
  lemma Pieces<T>(a: seq<T>, b: seq<T>, c: seq<T>, d: seq<T>)
    ensures var s := a + b + c + d;
      && a <= s && s[|a|..] == b + c + d
      && b <= b + c + d && (b + c + d)[|b|..] == c + d
      && c <= c + d
      && |d| <= |s| && s[|s| - |d|..] == d
  {
    var s := a + b + c + d;
    assert s[..|a|] == a;
    assert s[|a|..] == b + c + d;
    assert (b + c + d)[..|b|] == b;
    assert (b + c + d)[|b|..] == c + d;
    assert (c + d)[..|c|] == c;
  }

  /** The first element of a non-empty concatenation. */
  lemma FirstOf<T>(a: seq<T>, b: seq<T>)
    requires |a + b| > 0
    ensures (a + b)[0] == if |a| > 0 then a[0] else b[0]
  {
  }

  /** A sequence does not start with a pattern whose first element differs from its own. */
  lemma FirstDiffers<T>(p: seq<T>, s: seq<T>)
    requires |p| > 0 && |s| > 0 && p[0] != s[0]
    ensures !(p <= s)
  {
  }

  /**
   * The shape of the task message: the title line first; right after it a
   * description line exactly when there is a description; after that the
   * input block exactly when the input has keys; the priority and type
   * lines last.
   */
  lemma TaskMessageShape(task: Task, inputJson: string)
    ensures var m := TaskMessage(task, inputJson);
      var title := "Task: " + task.title + "\n";
      var desc := "Description: " + task.description + "\n";
      var tail := "\nPriority: " + NatToString(task.priority as nat) + " (1=urgent, 5=background)\n"
                  + "Type: " + KindName(task.kind) + "\n";
      && title <= m
      && var rest := m[|title|..];
      && (task.description != "" ==> desc <= rest)
      && (task.description == "" ==> !("Description: " <= rest))
      && var afterDesc := if task.description != "" then rest[|desc|..] else rest;
      && (|task.input| > 0 ==> "Input:\n" + inputJson + "\n" <= afterDesc)
      && (|task.input| == 0 ==> !("Input:\n" <= afterDesc))
      && |tail| <= |m| && m[|m| - |tail|..] == tail
  {
    var title := "Task: " + task.title + "\n";
    var desc := if task.description != "" then "Description: " + task.description + "\n" else "";
    var input := if |task.input| > 0 then "Input:\n" + inputJson + "\n" else "";
    var tail := "\nPriority: " + NatToString(task.priority as nat) + " (1=urgent, 5=background)\n"
                + "Type: " + KindName(task.kind) + "\n";
    assert TaskMessage(task, inputJson) == title + desc + input + tail;
    Pieces(title, desc, input, tail);
    assert tail[0] == '\n';
    FirstOf(input, tail);
    if input == "" {
      FirstDiffers("Input:\n", input + tail);
    }
    if desc == "" {
      assert (desc + input + tail)[|desc|..] == desc + input + tail;
      FirstDiffers("Description: ", input + tail);
    }
  }

  // ─── Dispatching tool calls ────────────────────────────

  datatype CallOutcome = CallOutcome(result: ToolResult, notes: seq<Note>, kinds: seq<EventKind>)

  /** One tool call: logged, then looked up and run; neither failure stops the loop. */
  function CallOne(c: Ctx, call: ToolCall): CallOutcome {
    var calling := Note(c.taskId, c.agentId, Info, "Calling tool: " + call.name, Some(ArgsData(call.arguments)));
    if call.name !in c.tools then
      CallOutcome(Raised(call.id, "Unknown tool: " + call.name), [calling], [LogKind])
    else
      match c.tools[call.name].execute(call.arguments)
      case Value(v) => CallOutcome(Returned(call.id, v), [calling], [LogKind])
      case Throws(msg) =>
        CallOutcome(Raised(call.id, msg),
                    [calling, Note(c.taskId, c.agentId, ErrorLevel, "Tool " + call.name + " failed: " + msg, None)],
                    [LogKind, LogKind])
  }

  datatype Dispatched = Dispatched(results: seq<ToolResult>, notes: seq<Note>, kinds: seq<EventKind>)

  /** All calls of one response, in order. */
  function Dispatch(c: Ctx, calls: seq<ToolCall>): Dispatched
    decreases |calls|
  {
    if |calls| == 0 then Dispatched([], [], [])
    else
      var d := Dispatch(c, calls[..|calls| - 1]);
      var o := CallOne(c, calls[|calls| - 1]);
      Dispatched(d.results + [o.result], d.notes + o.notes, d.kinds + o.kinds)
  }

  /**
   * Every call yields exactly one result carrying its id, in order: an
   * unregistered name gives `Unknown tool: <name>`, a throwing handler its
   * message, a returning handler its value.
   */
  lemma {:induction false} DispatchSpec(c: Ctx, calls: seq<ToolCall>)
    ensures var d := Dispatch(c, calls);
      && |d.results| == |calls|
      && forall i :: 0 <= i < |calls| ==>
           && d.results[i].callId == calls[i].id
           && (calls[i].name !in c.tools ==> d.results[i] == Raised(calls[i].id, "Unknown tool: " + calls[i].name))
           && (calls[i].name in c.tools ==>
                 match c.tools[calls[i].name].execute(calls[i].arguments)
                 case Value(v) => d.results[i] == Returned(calls[i].id, v)
                 case Throws(m) => d.results[i] == Raised(calls[i].id, m))
    decreases |calls|
  {
    if |calls| > 0 {
      var init := calls[..|calls| - 1];
      DispatchSpec(c, init);
      assert forall i :: 0 <= i < |init| ==> init[i] == calls[i];
    }
  }

  // ─── One iteration ─────────────────────────────────────

  function AddUsage(u: TokenUsage, r: LlmResponse): (v: TokenUsage)
    ensures v.prompt == u.prompt + r.promptTokens
    ensures v.completion == u.completion + r.completionTokens
    ensures v.total == u.total + r.promptTokens + r.completionTokens
  {
    TokenUsage(u.prompt + r.promptTokens, u.completion + r.completionTokens,
               u.total + (r.promptTokens + r.completionTokens))
  }

  datatype StepResult =
    | Continue(next: Progress)
    | Stop(next: Progress)
    | Crash(next: Progress, error: string)

  /** What a response adds before its tool calls are looked at: tokens, and the thinking event and log line. */
  function Absorb(c: Ctx, p: Progress, r: LlmResponse): Progress {
    var q := p.(usage := AddUsage(p.usage, r), responses := p.responses + [r]);
    if r.content != "" then
      q.(finalContent := r.content,
         kinds := q.kinds + [ThinkingKind(r.content), LogKind],
         notes := q.notes + [Note(c.taskId, c.agentId, Debug, "Agent thinking: " + Prefix(r.content, 200), None)])
    else q
  }

  /** The two turns an iteration that used tools appends to the history. */
  function Turns(r: LlmResponse, results: seq<ToolResult>): seq<ChatMessage> {
    [ChatMessage(Assistant, AssistantText(r)), ChatMessage(User, ResultsText(results))]
  }

  /** One pass of the loop body, from the call of the service to the new history. */
  function Step(c: Ctx, p: Progress): (s: StepResult)
    ensures s.next.iteration == p.iteration + 1
  {
    var p1 := p.(iteration := p.iteration + 1);
    match c.chat(c.sys, p.history, c.defs)
    case Threw(msg) => Crash(p1, msg)
    case Responded(r) =>
      var q := Absorb(c, p1, r);
      if |r.toolCalls| == 0 then Stop(q)
      else
        var d := Dispatch(c, r.toolCalls);
        Continue(q.(history := q.history + Turns(r, d.results), notes := q.notes + d.notes, kinds := q.kinds + d.kinds))
  }

  datatype LoopEnd = Finished(last: Progress) | Crashed(last: Progress, error: string)

  /** The loop: at most ten iterations; a response without tool calls ends it, as does a throw. */
  function Loop(c: Ctx, p: Progress): LoopEnd
    decreases MaxIterations - p.iteration
  {
    if p.iteration >= MaxIterations then Finished(p)
    else
      match Step(c, p)
      case Continue(q) => Loop(c, q)
      case Stop(q) => Finished(q)
      case Crash(q, e) => Crashed(q, e)
  }

  // ─── A whole run ───────────────────────────────────────

  /** The state on entering the loop: the task message alone in the history, the start logged. */
  function Start(c: Ctx, task: Task, inputJson: string, usage: TokenUsage): Progress {
    Progress([ChatMessage(User, TaskMessage(task, inputJson))], usage, 0, "", [],
             [Note(c.taskId, c.agentId, Info, "Starting task: " + task.title, None)],
             [StatusKind(Busy), LogKind])
  }

  datatype RunResult = RunResult(success: bool, output: Output, end: LoopEnd, notes: seq<Note>, kinds: seq<EventKind>)

  /** How a run ends once its loop is over: the output, and the closing log line and events. */
  function Conclude(c: Ctx, e: LoopEnd): RunResult {
    match e
    case Finished(p) =>
      RunResult(true, Completion(p.finalContent, p.iteration), e,
                p.notes + [Note(c.taskId, c.agentId, Info, "Task completed after " + NatToString(p.iteration) + " iterations", None)],
                p.kinds + [StatusKind(Idle), LogKind, CompletedKind])
    case Crashed(p, msg) =>
      RunResult(false, ErrorOutput(msg), e,
                p.notes + [Note(c.taskId, c.agentId, ErrorLevel, "Task failed: " + msg, None)],
                p.kinds + [StatusKind(Error), LogKind, FailedKind(msg)])
  }

  /** A run's result and the log lines and event kinds it produces from start to finish. */
  function Run(c: Ctx, task: Task, inputJson: string, usage: TokenUsage): RunResult {
    Conclude(c, Loop(c, Start(c, task, inputJson, usage)))
  }

  /** The episodic record a run leaves: its summary, outcome, context and lessons. */
  function Episode(task: Task, r: RunResult): (string, Outcome, EpisodicOptions) {
    match r.output
    case Completion(content, _) =>
      ("Completed task \"" + task.title + "\": " + Prefix(content, 500), Success,
       EpisodicOptions(Some(task.id), Some(InputContext(task.input)), Some("")))
    case ErrorOutput(msg) =>
      ("Failed task \"" + task.title + "\": " + msg, FailedOutcome,
       EpisodicOptions(Some(task.id), Some(ErrorContext(msg)), Some(msg)))
  }

  // ─── Properties of the loop ────────────────────────────

  function SumPrompt(rs: seq<LlmResponse>): nat
    decreases |rs|
  {
    if |rs| == 0 then 0 else SumPrompt(rs[..|rs| - 1]) + rs[|rs| - 1].promptTokens
  }

  function SumCompletion(rs: seq<LlmResponse>): nat
    decreases |rs|
  {
    if |rs| == 0 then 0 else SumCompletion(rs[..|rs| - 1]) + rs[|rs| - 1].completionTokens
  }

  /** The content of the last response whose content is not empty, or "". */
  function LastContent(rs: seq<LlmResponse>): string
    decreases |rs|
  {
    if |rs| == 0 then ""
    else if rs[|rs| - 1].content != "" then rs[|rs| - 1].content
    else LastContent(rs[..|rs| - 1])
  }

  /** How many responses asked for tools. */
  function ToolRounds(rs: seq<LlmResponse>): (n: nat)
    ensures n <= |rs|
    decreases |rs|
  {
    if |rs| == 0 then 0 else ToolRounds(rs[..|rs| - 1]) + (if |rs[|rs| - 1].toolCalls| > 0 then 1 else 0)
  }

  /** The turns the responses add to the history: two for each that used tools, none for the others. */
  function Transcript(c: Ctx, rs: seq<LlmResponse>): (h: seq<ChatMessage>)
    ensures |h| == 2 * ToolRounds(rs)
    decreases |rs|
  {
    if |rs| == 0 then []
    else
      var r := rs[|rs| - 1];
      Transcript(c, rs[..|rs| - 1]) + (if |r.toolCalls| > 0 then Turns(r, Dispatch(c, r.toolCalls).results) else [])
  }

  /** The history as it stood when the `k`-th response was asked for. */
  function Before(c: Ctx, h0: seq<ChatMessage>, rs: seq<LlmResponse>, k: nat): seq<ChatMessage>
    requires k <= |rs|
  {
    h0 + Transcript(c, rs[..k])
  }

  /** Each response is what the service answered to the history as it stood when it was called. */
  predicate Answered(c: Ctx, h0: seq<ChatMessage>, rs: seq<LlmResponse>) {
    forall k {:trigger Before(c, h0, rs, k)} :: 0 <= k < |rs| ==> c.chat(c.sys, Before(c, h0, rs, k), c.defs) == Responded(rs[k])
  }

  /** How the counters of a run relate to the responses it has received. */
  predicate Accounted(p: Progress, base: Progress) {
    && p.usage.prompt == base.usage.prompt + SumPrompt(p.responses)
    && p.usage.completion == base.usage.completion + SumCompletion(p.responses)
    && p.usage.total == base.usage.total + SumPrompt(p.responses) + SumCompletion(p.responses)
    && p.finalContent == LastContent(p.responses)
    && base.notes <= p.notes && base.kinds <= p.kinds
  }

  /** How the history of a run relates to the responses it has received: it is `h0` and their transcript, and each was answered to the history before it. */
  predicate Conversed(c: Ctx, p: Progress, h0: seq<ChatMessage>) {
    p.history == h0 + Transcript(c, p.responses) && Answered(c, h0, p.responses)
  }

  /** Between iterations: one response per iteration so far, every one of which used tools. */
  predicate Between(c: Ctx, p: Progress, base: Progress) {
    && Accounted(p, base) && Conversed(c, p, base.history)
    && |p.responses| == p.iteration <= MaxIterations
    && forall i :: 0 <= i < |p.responses| ==> |p.responses[i].toolCalls| > 0
  }

  /** The counters and the transcript of the responses with one more at the end. */
  lemma Snoc(rs: seq<LlmResponse>, r: LlmResponse)
    ensures SumPrompt(rs + [r]) == SumPrompt(rs) + r.promptTokens
    ensures SumCompletion(rs + [r]) == SumCompletion(rs) + r.completionTokens
    ensures LastContent(rs + [r]) == if r.content != "" then r.content else LastContent(rs)
    ensures ToolRounds(rs + [r]) == ToolRounds(rs) + (if |r.toolCalls| > 0 then 1 else 0)
  {
    assert (rs + [r])[..|rs|] == rs;
  }

  /** A response the service gave to the history so far extends what was answered and the transcript. */
  lemma AnsweredSnoc(c: Ctx, h0: seq<ChatMessage>, rs: seq<LlmResponse>, r: LlmResponse)
    requires Answered(c, h0, rs)
    requires c.chat(c.sys, h0 + Transcript(c, rs), c.defs) == Responded(r)
    ensures Answered(c, h0, rs + [r])
    ensures Transcript(c, rs + [r])
         == Transcript(c, rs) + (if |r.toolCalls| > 0 then Turns(r, Dispatch(c, r.toolCalls).results) else [])
  {
    var rs' := rs + [r];
    assert rs'[..|rs|] == rs;
    forall k | 0 <= k < |rs'|
      ensures c.chat(c.sys, Before(c, h0, rs', k), c.defs) == Responded(rs'[k])
    {
      if k < |rs| {
        assert rs'[..k] == rs[..k];
        assert Before(c, h0, rs', k) == Before(c, h0, rs, k);
      }
    }
  }

  /** The response and the history a step adds: the answer to the history as it stands, and its turns when it used tools. */
  lemma StepShape(c: Ctx, p: Progress)
    ensures var a := c.chat(c.sys, p.history, c.defs);
      && (a.Threw? ==> Step(c, p) == Crash(p.(iteration := p.iteration + 1), a.message))
      && (a.Responded? ==>
            && !Step(c, p).Crash?
            && Step(c, p).next.responses == p.responses + [a.response]
            && Step(c, p).next.history
               == p.history + (if |a.response.toolCalls| > 0 then Turns(a.response, Dispatch(c, a.response.toolCalls).results) else []))
  {
  }

  /** A response without tool calls ends the loop with every response accounted for. */
  lemma StopKeeps(c: Ctx, p: Progress, base: Progress, r: LlmResponse)
    requires Between(c, p, base) && |r.toolCalls| == 0
    ensures var q := Absorb(c, p.(iteration := p.iteration + 1), r);
      && Accounted(q, base) && |q.responses| == q.iteration
      && |q.responses[q.iteration - 1].toolCalls| == 0
      && forall i :: 0 <= i < |q.responses| - 1 ==> |q.responses[i].toolCalls| > 0
  {
    Snoc(p.responses, r);
    var q := Absorb(c, p.(iteration := p.iteration + 1), r);
    assert q.responses == p.responses + [r];
    assert p.notes <= q.notes && p.kinds <= q.kinds;
  }

  /** A response with tool calls leads to the next iteration with every response accounted for. */
  lemma ContinueKeeps(c: Ctx, p: Progress, base: Progress, r: LlmResponse)
    requires Between(c, p, base) && p.iteration < MaxIterations && |r.toolCalls| > 0
    ensures var q := Absorb(c, p.(iteration := p.iteration + 1), r);
      var d := Dispatch(c, r.toolCalls);
      var q' := q.(history := q.history + Turns(r, d.results), notes := q.notes + d.notes, kinds := q.kinds + d.kinds);
      && Accounted(q', base)
      && |q'.responses| == q'.iteration <= MaxIterations
      && forall i :: 0 <= i < |q'.responses| ==> |q'.responses[i].toolCalls| > 0
  {
    Snoc(p.responses, r);
    var q := Absorb(c, p.(iteration := p.iteration + 1), r);
    var d := Dispatch(c, r.toolCalls);
    var q' := q.(history := q.history + Turns(r, d.results), notes := q.notes + d.notes, kinds := q.kinds + d.kinds);
    assert q'.responses == p.responses + [r] && q'.iteration == p.iteration + 1;
    assert q'.usage == q.usage && q'.finalContent == q.finalContent;
    assert p.notes <= q.notes <= q'.notes && p.kinds <= q.kinds <= q'.kinds;
  }

  /** Each step keeps the history the transcript of the answers; a throw happened on the history as it stands. */
  lemma StepConverses(c: Ctx, p: Progress, h0: seq<ChatMessage>)
    requires Conversed(c, p, h0)
    ensures match Step(c, p)
      case Continue(q) => Conversed(c, q, h0)
      case Stop(q) => Conversed(c, q, h0)
      case Crash(q, e) => Conversed(c, q, h0) && c.chat(c.sys, q.history, c.defs) == Threw(e)
  {
    StepShape(c, p);
    match c.chat(c.sys, p.history, c.defs)
    case Threw(_) =>
    case Responded(r) =>
      AnsweredSnoc(c, h0, p.responses, r);
  }

  lemma {:induction false} StepKeeps(c: Ctx, p: Progress, base: Progress)
    requires Between(c, p, base) && p.iteration < MaxIterations
    ensures match Step(c, p)
      case Continue(q) => Between(c, q, base)
      case Stop(q) =>
        && Accounted(q, base) && Conversed(c, q, base.history) && |q.responses| == q.iteration
        && |q.responses[q.iteration - 1].toolCalls| == 0
        && forall i :: 0 <= i < |q.responses| - 1 ==> |q.responses[i].toolCalls| > 0
      case Crash(q, e) =>
        && Between(c, q.(iteration := q.iteration - 1), base) && q.responses == p.responses
        && c.chat(c.sys, q.history, c.defs) == Threw(e)
  {
    StepConverses(c, p, base.history);
    match c.chat(c.sys, p.history, c.defs)
    case Threw(_) =>
    case Responded(r) =>
      if |r.toolCalls| == 0 {
        StopKeeps(c, p, base, r);
      } else {
        ContinueKeeps(c, p, base, r);
      }
  }

  /**
   * How a loop entered at `p` may end: by the iteration cap, by a response
   * without tool calls or by a throw on the history as it then stood, with
   * the counters and the history accounting for every response.
   */
  predicate Ended(c: Ctx, p: Progress, e: LoopEnd, base: Progress) {
    match e
    case Finished(q) =>
      && Accounted(q, base) && Conversed(c, q, base.history) && p.iteration <= q.iteration <= MaxIterations
      && |q.responses| == q.iteration
      && (forall i :: 0 <= i < |q.responses| - 1 ==> |q.responses[i].toolCalls| > 0)
      && (q.iteration < MaxIterations ==> q.iteration > p.iteration && |q.responses[q.iteration - 1].toolCalls| == 0)
    case Crashed(q, error) =>
      && Accounted(q, base) && Conversed(c, q, base.history) && p.iteration < q.iteration <= MaxIterations
      && |q.responses| == q.iteration - 1
      && (forall i :: 0 <= i < |q.responses| ==> |q.responses[i].toolCalls| > 0)
      && c.chat(c.sys, q.history, c.defs) == Threw(error)
  }

  /** The loop ends as `Ended` says. */
  lemma {:induction false} LoopSpec(c: Ctx, p: Progress, base: Progress)
    requires Between(c, p, base)
    ensures Ended(c, p, Loop(c, p), base)
    decreases MaxIterations - p.iteration
  {
    if p.iteration < MaxIterations {
      StepKeeps(c, p, base);
      match Step(c, p)
      case Continue(q) =>
        LoopSpec(c, q, base);
        assert Loop(c, p) == Loop(c, q);
      case Stop(q) =>
        assert Loop(c, p) == Finished(q);
        assert Ended(c, p, Finished(q), base);
      case Crash(q, e) =>
        assert Loop(c, p) == Crashed(q, e);
        assert Ended(c, p, Crashed(q, e), base);
    } else {
      assert Loop(c, p) == Finished(p);
      assert Ended(c, p, Finished(p), base);
    }
  }

  /** When every response used tools, there is one tool round per response. */
  lemma {:induction false} AllToolRounds(rs: seq<LlmResponse>)
    requires forall i :: 0 <= i < |rs| ==> |rs[i].toolCalls| > 0
    ensures ToolRounds(rs) == |rs|
    decreases |rs|
  {
    if |rs| > 0 {
      AllToolRounds(rs[..|rs| - 1]);
    }
  }

  /** The transcript of the first `k` responses is a prefix of the transcript of all of them. */
  lemma {:induction false} TranscriptPrefix(c: Ctx, rs: seq<LlmResponse>, k: nat)
    requires k <= |rs|
    ensures Transcript(c, rs[..k]) <= Transcript(c, rs)
    decreases |rs|
  {
    if k < |rs| {
      var init := rs[..|rs| - 1];
      assert rs[..k] == init[..k];
      TranscriptPrefix(c, init, k);
    } else {
      assert rs[..k] == rs;
    }
  }

  /** One more response adds its turns to the transcript when it used tools. */
  lemma TranscriptNext(c: Ctx, rs: seq<LlmResponse>, k: nat)
    requires k < |rs|
    ensures Transcript(c, rs[..k + 1])
         == Transcript(c, rs[..k]) + (if |rs[k].toolCalls| > 0 then Turns(rs[k], Dispatch(c, rs[k].toolCalls).results) else [])
  {
    assert rs[..k + 1][..k] == rs[..k];
    assert rs[..k + 1][k] == rs[k];
  }

  /** While the responses before the `k`-th all used tools, their transcript is the first `2k` turns. */
  lemma TranscriptUpTo(c: Ctx, rs: seq<LlmResponse>, k: nat)
    requires k <= |rs|
    requires forall i :: 0 <= i < k ==> |rs[i].toolCalls| > 0
    ensures 2 * k <= |Transcript(c, rs)|
    ensures Transcript(c, rs[..k]) == Transcript(c, rs)[..2 * k]
  {
    TranscriptPrefix(c, rs, k);
    AllToolRounds(rs[..k]);
  }

  /**
   * In a history of the task message `m` and the transcript of answered
   * responses, each response was asked on the turns before its own.
   */
  lemma AnsweredPositions(c: Ctx, m: ChatMessage, rs: seq<LlmResponse>)
    requires Answered(c, [m], rs)
    requires forall i :: 0 <= i < |rs| - 1 ==> |rs[i].toolCalls| > 0
    ensures var h := [m] + Transcript(c, rs);
      forall k :: 0 <= k < |rs| ==> 1 + 2 * k <= |h| && c.chat(c.sys, h[..1 + 2 * k], c.defs) == Responded(rs[k])
  {
    var h := [m] + Transcript(c, rs);
    forall k | 0 <= k < |rs|
      ensures 1 + 2 * k <= |h| && c.chat(c.sys, h[..1 + 2 * k], c.defs) == Responded(rs[k])
    {
      TranscriptUpTo(c, rs, k);
      assert h[..1 + 2 * k] == Before(c, [m], rs, k);
    }
  }

  /** What follows a prefix `a` of `t` in `t` after one more element up front. */
  lemma SliceAfter<T>(m: T, t: seq<T>, a: seq<T>, x: seq<T>)
    requires a + x <= t
    ensures 1 + |a| + |x| <= |[m] + t|
    ensures ([m] + t)[1 + |a|..1 + |a| + |x|] == x
  {
    forall i | 0 <= i < |x|
      ensures ([m] + t)[1 + |a|..1 + |a| + |x|][i] == x[i]
    {
      assert t[|a| + i] == (a + x)[|a| + i];
    }
  }

  /** A response that used tools has its turns right after the `2k` turns of those before it. */
  lemma TurnsFollow(c: Ctx, rs: seq<LlmResponse>, k: nat)
    requires k < |rs| && |rs[k].toolCalls| > 0
    requires forall i :: 0 <= i < k ==> |rs[i].toolCalls| > 0
    ensures |Transcript(c, rs[..k])| == 2 * k
    ensures Transcript(c, rs[..k]) + Turns(rs[k], Dispatch(c, rs[k].toolCalls).results) <= Transcript(c, rs)
  {
    TranscriptPrefix(c, rs, k + 1);
    TranscriptNext(c, rs, k);
    AllToolRounds(rs[..k]);
  }

  /** After the task message `m`, the `k`-th response's two turns sit right after the turns before it when it used tools. */
  lemma TurnsAt(c: Ctx, m: ChatMessage, rs: seq<LlmResponse>, k: nat)
    requires k < |rs| && |rs[k].toolCalls| > 0
    requires forall i :: 0 <= i < k ==> |rs[i].toolCalls| > 0
    ensures var h := [m] + Transcript(c, rs);
      3 + 2 * k <= |h| && h[1 + 2 * k..3 + 2 * k] == Turns(rs[k], Dispatch(c, rs[k].toolCalls).results)
  {
    TurnsFollow(c, rs, k);
    SliceAfter(m, Transcript(c, rs), Transcript(c, rs[..k]), Turns(rs[k], Dispatch(c, rs[k].toolCalls).results));
  }

  /** When there are as many tool rounds as responses, the last response used tools too. */
  lemma LastRound(rs: seq<LlmResponse>)
    requires |rs| > 0 && ToolRounds(rs) == |rs|
    ensures |rs[|rs| - 1].toolCalls| > 0
  {
    assert ToolRounds(rs[..|rs| - 1]) <= |rs| - 1;
  }

  /**
   * In a history of the task message `m` and the transcript of responses of
   * which all but the last used tools, the tool rounds' turns come in
   * response order.
   */
  lemma TurnPositions(c: Ctx, m: ChatMessage, rs: seq<LlmResponse>)
    requires forall i :: 0 <= i < |rs| - 1 ==> |rs[i].toolCalls| > 0
    ensures var h := [m] + Transcript(c, rs);
      forall k :: 0 <= k < ToolRounds(rs) ==>
        3 + 2 * k <= |h| && h[1 + 2 * k..3 + 2 * k] == Turns(rs[k], Dispatch(c, rs[k].toolCalls).results)
  {
    forall k | 0 <= k < ToolRounds(rs)
      ensures var h := [m] + Transcript(c, rs);
        3 + 2 * k <= |h| && h[1 + 2 * k..3 + 2 * k] == Turns(rs[k], Dispatch(c, rs[k].toolCalls).results)
    {
      if k == |rs| - 1 {
        LastRound(rs);
      }
      TurnsAt(c, m, rs, k);
    }
  }

  /** When the service never throws, the loop always finishes. */
  lemma {:induction false} NoThrowFinishes(c: Ctx, p: Progress)
    requires forall h :: c.chat(c.sys, h, c.defs).Responded?
    ensures Loop(c, p).Finished?
    decreases MaxIterations - p.iteration
  {
    if p.iteration < MaxIterations {
      assert c.chat(c.sys, p.history, c.defs).Responded?;
      match Step(c, p)
      case Continue(q) => NoThrowFinishes(c, q);
      case Stop(_) =>
      case Crash(_, _) =>
    }
  }

  /** How the loop of a run ends, its counters and the length and first turn of its history. */
  lemma RunEnd(c: Ctx, task: Task, inputJson: string, usage: TokenUsage)
    ensures var s := Start(c, task, inputJson, usage);
      var e := Loop(c, s);
      var q := e.last;
      && Accounted(q, s)
      && 1 <= q.iteration <= MaxIterations
      && |q.history| == 1 + 2 * ToolRounds(q.responses)
      && q.history[0] == ChatMessage(User, TaskMessage(task, inputJson))
      && (e.Finished? ==>
            && |q.responses| == q.iteration
            && (q.iteration < MaxIterations ==> |q.responses[q.iteration - 1].toolCalls| == 0))
      && (e.Crashed? ==> |q.responses| == q.iteration - 1)
  {
    var s := Start(c, task, inputJson, usage);
    LoopSpec(c, s, s);
    var q := Loop(c, s).last;
    assert q.history == s.history + Transcript(c, q.responses);
  }

  /**
   * What a whole run promises: 1 to 10 iterations, a success exactly when no
   * call threw, the output and the counters accounting for every response,
   * one assistant and one tool-results turn for every iteration that used
   * tools (what those turns hold is `RunConversation`), the start logged
   * first and the outcome last.
   */
  lemma RunSpec(c: Ctx, task: Task, inputJson: string, usage: TokenUsage)
    requires usage.total == usage.prompt + usage.completion
    ensures var r := Run(c, task, inputJson, usage);
      var q := r.end.last;
      && r.success == r.end.Finished?
      && 1 <= q.iteration <= MaxIterations
      && q.usage.total == q.usage.prompt + q.usage.completion
      && q.usage.prompt == usage.prompt + SumPrompt(q.responses)
      && q.usage.completion == usage.completion + SumCompletion(q.responses)
      && |q.history| == 1 + 2 * ToolRounds(q.responses)
      && q.history[0] == ChatMessage(User, TaskMessage(task, inputJson))
      && (r.success ==>
            && r.output == Completion(LastContent(q.responses), q.iteration)
            && |q.responses| == q.iteration
            && (q.iteration < MaxIterations ==> |q.responses[q.iteration - 1].toolCalls| == 0))
      && (!r.success ==> r.output == ErrorOutput(r.end.error) && |q.responses| == q.iteration - 1)
      && r.notes[0] == Note(c.taskId, c.agentId, Info, "Starting task: " + task.title, None)
      && r.kinds[..2] == [StatusKind(Busy), LogKind]
      && r.kinds[|r.kinds| - 1] == (if r.success then CompletedKind else FailedKind(r.end.error))
  {
    var s := Start(c, task, inputJson, usage);
    RunEnd(c, task, inputJson, usage);
    assert Run(c, task, inputJson, usage) == Conclude(c, Loop(c, s));
  }

  /**
   * The conversation a run holds: after the task message, each response's
   * assistant and tool-results turns in the order the responses came; each
   * response is the service's answer to the history as it stood before it
   * (the task message and the turns of the responses before), and a failed
   * run's last call threw on the history it ended with.
   */
  lemma RunConversation(c: Ctx, task: Task, inputJson: string, usage: TokenUsage)
    ensures var r := Run(c, task, inputJson, usage);
      var q := r.end.last;
      && q.history == [ChatMessage(User, TaskMessage(task, inputJson))] + Transcript(c, q.responses)
      && (forall k :: 0 <= k < |q.responses| ==>
            1 + 2 * k <= |q.history| && c.chat(c.sys, q.history[..1 + 2 * k], c.defs) == Responded(q.responses[k]))
      && (forall k :: 0 <= k < ToolRounds(q.responses) ==>
            q.history[1 + 2 * k..3 + 2 * k] == Turns(q.responses[k], Dispatch(c, q.responses[k].toolCalls).results))
      && (!r.success ==> c.chat(c.sys, q.history, c.defs) == Threw(r.end.error))
  {
    var s := Start(c, task, inputJson, usage);
    LoopSpec(c, s, s);
    var q := Loop(c, s).last;
    var rs := q.responses;
    assert s.history == [s.history[0]];
    assert forall i :: 0 <= i < |rs| - 1 ==> |rs[i].toolCalls| > 0;
    AnsweredPositions(c, s.history[0], rs);
    TurnPositions(c, s.history[0], rs);
  }



  /** A run keeps the total token count the sum of the other two. */
  lemma RunKeepsTotal(c: Ctx, task: Task, inputJson: string, usage: TokenUsage)
    requires usage.total == usage.prompt + usage.completion
    ensures var u := Run(c, task, inputJson, usage).end.last.usage; u.total == u.prompt + u.completion
  {
    RunSpec(c, task, inputJson, usage);
  }

  /** A whole run never crashes when the service never throws. */
  lemma RunSucceedsWithoutThrows(c: Ctx, task: Task, inputJson: string, usage: TokenUsage)
    requires forall h :: c.chat(c.sys, h, c.defs).Responded?
    ensures Run(c, task, inputJson, usage).success
  {
    NoThrowFinishes(c, Start(c, task, inputJson, usage));
  }
}
