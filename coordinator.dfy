/**
 * The agent coordinator: the registry of agents, the choice of an agent for
 * a task, the run of a task on an agent followed by a look at the queue, and
 * the polling tick that hands queued tasks out.
 */
module Coordination {
  import opened Types
  import opened Text
  import opened Ordering
  import opened TaskStore
  import opened MemoryStore
  import opened AgentLoop
  import opened Agents

  // ─── Choosing an agent ─────────────────────────────────

  /** The text the capabilities are looked for in: title and description, lower-cased. */
  function Keywords(task: Task): string {
    Lower(task.title + " " + task.description)
  }

  function Matches(keywords: string): string -> bool {
    (cap: string) => Contains(keywords, Lower(cap))
  }

  /** The `reduce` of `findBestAgent`: one point for every capability the keywords contain. */
  function Score(caps: seq<string>, keywords: string): nat
    decreases |caps|
  {
    if |caps| == 0 then 0
    else (if Contains(keywords, Lower(caps[0])) then 1 else 0) + Score(caps[1..], keywords)
  }

  /** The score counts exactly the matching capabilities; it is zero exactly when none matches. */
  lemma {:induction false} ScoreSpec(caps: seq<string>, keywords: string)
    ensures Score(caps, keywords) == |Filter(caps, Matches(keywords))|
    ensures Score(caps, keywords) <= |caps|
    ensures Score(caps, keywords) == 0 <==> forall i :: 0 <= i < |caps| ==> !Matches(keywords)(caps[i])
    decreases |caps|
  {
    if |caps| > 0 {
      ScoreSpec(caps[1..], keywords);
      assert forall i :: 1 <= i < |caps| ==> caps[1..][i - 1] == caps[i];
    }
  }

  /** One entry per agent: its score when it is idle, else `None`. */
  function Scores(agents: seq<BaseAgent>, keywords: string): (r: seq<Option<nat>>)
    reads agents
    ensures |r| == |agents|
    ensures forall i :: 0 <= i < |agents| ==>
      r[i] == if agents[i].state.status == Idle then Some(Score(agents[i].definition.capabilities, keywords)) else None
    decreases |agents|
  {
    if |agents| == 0 then []
    else
      var a := agents[|agents| - 1];
      Scores(agents[..|agents| - 1], keywords) + [if a.state.status == Idle then Some(Score(a.definition.capabilities, keywords)) else None]
  }

  /**
   * The choice the loop of `findBestAgent` makes over the agents in
   * registration order, where `None` stands for an agent that is not idle:
   * the first idle agent, replaced only by a later one with a strictly
   * higher score.
   */
  function Pick(cands: seq<Option<nat>>): (r: int)
    ensures -1 <= r < |cands|
    ensures r >= 0 ==> cands[r].Some?
    decreases |cands|
  {
    if |cands| == 0 then -1
    else
      var r := Pick(cands[..|cands| - 1]);
      var last := cands[|cands| - 1];
      if last.Some? && (r < 0 || last.value > cands[r].value) then |cands| - 1 else r
  }

  /**
   * No agent is chosen exactly when none is idle; otherwise the chosen one is
   * idle, no idle agent scores higher, and every idle agent before it scores lower.
   */
  lemma {:induction false} PickSpec(cands: seq<Option<nat>>)
    ensures Pick(cands) < 0 <==> forall i :: 0 <= i < |cands| ==> cands[i].None?
    ensures var r := Pick(cands);
      r >= 0 ==>
        && cands[r].Some?
        && (forall i :: 0 <= i < |cands| && cands[i].Some? ==> cands[i].value <= cands[r].value)
        && (forall i :: 0 <= i < r && cands[i].Some? ==> cands[i].value < cands[r].value)
    decreases |cands|
  {
    if |cands| > 0 {
      var init := cands[..|cands| - 1];
      PickSpec(init);
      assert forall i :: 0 <= i < |init| ==> init[i] == cands[i];
    }
  }

  // ─── What a run leaves in the task table ───────────────

  /**
   * From `before` to `after` the rows keep their places and ids, and every
   * row that was not queued keeps its contents unless its id is in `ids`.
   */
  ghost predicate KeptExcept(before: seq<Task>, after: seq<Task>, ids: set<nat>) {
    && |after| == |before|
    && (forall i :: 0 <= i < |before| ==> after[i].id == before[i].id)
    && (forall i :: 0 <= i < |before| && before[i].status != Queued && before[i].id !in ids ==> after[i] == before[i])
  }

  lemma KeptTrans(a: seq<Task>, b: seq<Task>, c: seq<Task>, s: set<nat>, s': set<nat>)
    requires KeptExcept(a, b, s) && KeptExcept(b, c, s')
    ensures KeptExcept(a, c, s + s')
  {
  }

  lemma KeptUpdate(tasks: seq<Task>, id: nat, status: TaskStatus, extra: Extra, now: nat)
    ensures KeptExcept(tasks, UpdateRows(tasks, id, status, extra, now), {id})
  {
  }

  /** The one row with a queued id is outside what `KeptExcept` protects anyway. */
  lemma KeptQueuedId(a: seq<Task>, b: seq<Task>, id: nat)
    requires UniqueIds(a) && IsQueued(a, id) && KeptExcept(a, b, {id})
    ensures KeptExcept(a, b, {})
  {
    forall i | 0 <= i < |a| && a[i].id == id
      ensures a[i].status == Queued
    {
      FindUnique(a, i);
    }
  }

  /** A settled row that is kept is found again unchanged. */
  lemma FindKept(a: seq<Task>, b: seq<Task>, id: nat, ids: set<nat>)
    requires UniqueIds(a) && UniqueIds(b) && KeptExcept(a, b, ids)
    requires Find(a, id).Some? && Find(a, id).value.status != Queued && id !in ids
    ensures Find(b, id) == Find(a, id)
  {
    var k :| 0 <= k < |a| && a[k] == Find(a, id).value;
    FindUnique(a, k);
    FindUnique(b, k);
  }

  /** A queued row of a table with unique ids is what its id finds. */
  lemma ListedQueued(tasks: seq<Task>, t: Task)
    requires UniqueIds(tasks) && t in tasks && t.status == Queued
    ensures IsQueued(tasks, t.id)
  {
    var k :| 0 <= k < |tasks| && tasks[k] == t;
    FindUnique(tasks, k);
  }

  /** The status a finished run gives its task: review or completed on success, failed otherwise. */
  function Verdict(success: bool, requiresApproval: bool): TaskStatus {
    if !success then Failed else if requiresApproval then Review else Completed
  }

  /**
   * The row of a task that the agent `agentId` has run, producing `output`:
   * assigned to it, started, holding that output, with the status the
   * outcome and the approval flag call for.
   */
  ghost predicate Settled(t: Task, agentId: string, output: Output) {
    && t.assignedAgent == Some(agentId)
    && t.startedAt.Some?
    && t.output == Some(output)
    && t.status == Verdict(output.Completion?, t.requiresApproval)
  }

  /**
   * An unknown task leaves the table as it was; a known one ends settled on
   * the agent with the output of the agent's run.
   */
  ghost predicate RanOn(before: seq<Task>, after: seq<Task>, id: nat, agentId: string, output: Output) {
    && (Find(before, id).None? ==> after == before)
    && (Find(before, id).Some? ==> Find(after, id).Some? && Settled(Find(after, id).value, agentId, output))
  }

  /** What `listTasks({ status: 'queued', limit: 10 })` asks for. */
  const QueuedPage := ListOptions(Some(Queued), None, Some(10))

  // ─── The registry ──────────────────────────────────────

  /**
   * The agents are kept the way a JavaScript `Map` keeps its entries: in the
   * order their ids were first set, each id at most once.
   */
  predicate Distinct(agents: seq<BaseAgent>) {
    forall i, j :: 0 <= i < j < |agents| ==> agents[i].definition.id != agents[j].definition.id
  }

  /** `Map.get`: the place of the agent registered under `id`, if there is one. */
  function IndexOf(agents: seq<BaseAgent>, id: string): (r: Option<nat>)
    ensures r.Some? ==> r.value < |agents| && agents[r.value].definition.id == id
    ensures r.None? <==> forall i :: 0 <= i < |agents| ==> agents[i].definition.id != id
    decreases |agents|
  {
    if |agents| == 0 then None
    else if agents[0].definition.id == id then Some(0)
    else match IndexOf(agents[1..], id)
      case None => None
      case Some(i) => Some(i + 1)
  }

  /** `Map.set`: a known id gets the new agent in its old place, a new id goes last. */
  function Put(agents: seq<BaseAgent>, a: BaseAgent): seq<BaseAgent> {
    match IndexOf(agents, a.definition.id)
    case Some(i) => agents[i := a]
    case None => agents + [a]
  }

  /**
   * After `Put` the id finds the new agent, every other id finds what it
   * found before, the entries keep their order and the ids stay distinct.
   */
  lemma PutSpec(agents: seq<BaseAgent>, a: BaseAgent)
    requires Distinct(agents)
    ensures var r := Put(agents, a);
      && Distinct(r)
      && IndexOf(r, a.definition.id).Some? && r[IndexOf(r, a.definition.id).value] == a
      && (forall k :: k != a.definition.id ==> IndexOf(r, k) == IndexOf(agents, k))
      && |r| == |agents| + (if IndexOf(agents, a.definition.id).None? then 1 else 0)
      && (forall i :: 0 <= i < |agents| && agents[i].definition.id != a.definition.id ==> r[i] == agents[i])
  {
    match IndexOf(agents, a.definition.id)
    case Some(i) => PutKnown(agents, a, i);
    case None => PutNew(agents, a);
  }

  /** `Map.set` on a known id replaces the agent in its place. */
  lemma PutKnown(agents: seq<BaseAgent>, a: BaseAgent, i: nat)
    requires Distinct(agents) && IndexOf(agents, a.definition.id) == Some(i)
    ensures var r := agents[i := a];
      && Distinct(r)
      && IndexOf(r, a.definition.id) == Some(i)
      && (forall k :: k != a.definition.id ==> IndexOf(r, k) == IndexOf(agents, k))
  {
    var id := a.definition.id;
    var r := agents[i := a];
    assert forall j :: 0 <= j < |r| ==> r[j].definition.id == agents[j].definition.id;
    IndexUnique(r, id);
    forall k | k != id
      ensures IndexOf(r, k) == IndexOf(agents, k)
    {
      IndexUnique(agents, k);
      IndexUnique(r, k);
    }
  }

  /** `Map.set` on a new id puts the agent last. */
  lemma PutNew(agents: seq<BaseAgent>, a: BaseAgent)
    requires Distinct(agents) && IndexOf(agents, a.definition.id).None?
    ensures var r := agents + [a];
      && Distinct(r)
      && IndexOf(r, a.definition.id) == Some(|agents|)
      && (forall k :: k != a.definition.id ==> IndexOf(r, k) == IndexOf(agents, k))
  {
    var id := a.definition.id;
    var r := agents + [a];
    forall i, j | 0 <= i < j < |r|
      ensures r[i].definition.id != r[j].definition.id
    {
      assert r[i] == agents[i];
      if j < |agents| {
        assert r[j] == agents[j];
      }
    }
    assert r[|agents|] == a;
    IndexUnique(r, id);
    forall k | k != id
      ensures IndexOf(r, k) == IndexOf(agents, k)
    {
      if i :| 0 <= i < |agents| && agents[i].definition.id == k {
        assert r[i] == agents[i];
        IndexUnique(agents, k);
        IndexUnique(r, k);
      } else {
        assert forall i :: 0 <= i < |r| ==> r[i].definition.id != k by {
          forall i | 0 <= i < |r|
            ensures r[i].definition.id != k
          {
            if i < |agents| {
              assert r[i] == agents[i];
            }
          }
        }
      }
    }
  }

  /** With distinct ids an id is found exactly where it is. */
  lemma IndexUnique(agents: seq<BaseAgent>, id: string)
    requires Distinct(agents)
    ensures forall i :: 0 <= i < |agents| && agents[i].definition.id == id ==> IndexOf(agents, id) == Some(i)
  {
  }

  class AgentCoordinator {
    const llm: Completion
    const inputJson: map<string, Json> -> string
    const store: TaskTable
    const memory: MemoryTables
    const env: Env

    /** The registered agents, in the order their ids were first registered. */
    var agents: seq<BaseAgent>
    /** The definitions by id; written on every registration. */
    var definitions: map<string, AgentDefinition>
    var listeners: seq<Listener>
    /** Whether the polling timer is set, and its interval. */
    var polling: bool
    var intervalMs: int
    /** Every agent object the coordinator has made. */
    ghost var Repr: set<BaseAgent>

    /**
     * The registered ids are distinct, every registered agent is one the
     * coordinator made, every agent it made is a valid member, and the task
     * table is valid.
     */
    ghost predicate Valid()
      reads this, Repr, store
    {
      && Distinct(agents)
      && (forall i :: 0 <= i < |agents| ==> agents[i] in Repr)
      && (forall a :: a in Repr ==> Member(a))
      && store.Valid()
    }

    /** The agent shares the coordinator's stores and clock and is valid itself. */
    ghost predicate Member(a: BaseAgent)
      reads a`state, a`tools, a`toolOrder
    {
      && a.store == store && a.memory == memory && a.env == env
      && a.Valid()
    }

    constructor (llm: Completion, inputJson: map<string, Json> -> string, store: TaskTable, memory: MemoryTables, env: Env)
      requires store.Valid()
      ensures Valid()
      ensures this.llm == llm && this.inputJson == inputJson
      ensures this.store == store && this.memory == memory && this.env == env
      ensures agents == [] && definitions == map[] && listeners == [] && !polling
    {
      this.llm := llm;
      this.inputJson := inputJson;
      this.store := store;
      this.memory := memory;
      this.env := env;
      agents := [];
      definitions := map[];
      listeners := [];
      polling := false;
      intervalMs := 0;
      Repr := {};
    }

    // ─── Agent management ──────────────────────────────

    /** `getAgent`: the agent registered under the id, if any. */
    function GetAgent(id: string): (r: Option<BaseAgent>)
      reads this
      ensures r.Some? <==> exists i :: 0 <= i < |agents| && agents[i].definition.id == id
      ensures r.Some? ==> r.value in agents && r.value.definition.id == id
    {
      match IndexOf(agents, id)
      case Some(i) => Some(agents[i])
      case None => None
    }

    /**
     * `registerAgent`: a new idle agent with the forwarding listener is
     * stored under its definition id, in the place of any earlier one there;
     * every other id keeps its agent, and a new id goes last.
     */
    method RegisterAgent(definition: AgentDefinition) returns (agent: BaseAgent)
      requires Valid()
      modifies this`agents, this`definitions, this`Repr, env
      ensures env.minted == old(env.minted) + 1 && env.clock == old(env.clock) + 1
      ensures Valid()
      ensures fresh(agent) && Repr == old(Repr) + {agent}
      ensures agents == Put(old(agents), agent)
      ensures definitions == old(definitions)[definition.id := definition]
      ensures agent.definition == definition && agent.listeners == [Relay]
      ensures agent.llm == llm && agent.inputJson == inputJson
      ensures agent.state.status == Idle && agent.state.currentTaskId.None? && agent.state.errorCount == 0
    {
      definitions := definitions[definition.id := definition];
      agent := NewAgent(definition);
      Enrol(agent);
    }

    /** Stores a new member in the registry under its definition id. */
    method Enrol(agent: BaseAgent)
      requires Valid() && Member(agent) && agent !in Repr
      modifies this`agents, this`Repr
      ensures Valid()
      ensures Repr == old(Repr) + {agent}
      ensures agents == Put(old(agents), agent)
    {
      PutSpec(agents, agent);
      agents := Put(agents, agent);
      Repr := Repr + {agent};
    }

    /** A new idle agent for the definition, sharing the coordinator's service and stores, with the forwarding listener. */
    method NewAgent(definition: AgentDefinition) returns (agent: BaseAgent)
      modifies env
      ensures env.minted == old(env.minted) + 1 && env.clock == old(env.clock) + 1
      ensures fresh(agent) && Member(agent)
      ensures agent.definition == definition && agent.listeners == [Relay]
      ensures agent.llm == llm && agent.inputJson == inputJson
      ensures agent.state.status == Idle && agent.state.currentTaskId.None? && agent.state.errorCount == 0
    {
      agent := new BaseAgent(definition, llm, inputJson, store, memory, env);
      agent.On(Relay);
    }

    /** `getAgentStates`: the state of every registered agent, in registration order. */
    function GetAgentStates(): (r: seq<AgentState>)
      reads this, Repr, store
      requires Valid()
      ensures |r| == |agents|
      ensures forall i :: 0 <= i < |agents| ==> r[i] == agents[i].state && r[i].definitionId == agents[i].definition.id
    {
      seq(|agents|, i requires 0 <= i < |agents| && agents[i] in Repr reads this, Repr => agents[i].state)
    }

    // ─── Events ────────────────────────────────────────

    method On(l: Listener)
      modifies this`listeners
      ensures listeners == old(listeners) + [l]
    {
      listeners := listeners + [l];
    }

    method Off(l: Listener)
      modifies this`listeners
      ensures listeners == Filter(old(listeners), (x: Listener) => x != l)
      ensures l !in listeners
      ensures forall x :: x != l ==> (x in listeners <==> x in old(listeners))
    {
      listeners := Filter(listeners, (x: Listener) => x != l);
    }

    // ─── Task assignment ───────────────────────────────

    /** The agents in registration order as `Pick` sees them: a score for each idle one. */
    function Candidates(task: Task): (r: seq<Option<nat>>)
      reads this, agents
      ensures |r| == |agents|
      ensures forall i :: 0 <= i < |agents| ==>
        r[i] == if agents[i].state.status == Idle then Some(Score(agents[i].definition.capabilities, Keywords(task))) else None
    {
      Scores(agents, Keywords(task))
    }

    /** The agent `Pick` chooses for the task, or none. */
    function Choice(task: Task): Option<BaseAgent>
      reads this, agents
    {
      var k := Pick(Candidates(task));
      if k < 0 then None else Some(agents[k])
    }

    /** `findBestAgent`: the agent `Pick` chooses, or none. */
    method FindBestAgent(task: Task) returns (best: Option<BaseAgent>)
      requires Valid()
      ensures best == Choice(task)
    {
      ghost var cands := Candidates(task);
      var keywords := Lower(task.title + " " + task.description);
      assert keywords == Keywords(task);
      var bestScore := 0;
      ghost var bestIdx := -1;
      best := None;
      for i := 0 to |agents|
        invariant bestIdx == Pick(cands[..i])
        invariant best == if bestIdx < 0 then None else Some(agents[bestIdx])
        invariant bestIdx >= 0 ==> cands[bestIdx] == Some(bestScore)
        invariant bestIdx < 0 ==> bestScore == 0
      {
        assert cands[..i + 1][..i] == cands[..i];
        var agent := agents[i];
        assert cands[i] == if agent.state.status == Idle then Some(Score(agent.definition.capabilities, keywords)) else None;
        if agent.state.status == Idle {
          var score := Score(agent.definition.capabilities, keywords);
          if score > bestScore || best.None? {
            best := Some(agent);
            bestScore := score;
            bestIdx := i;
          }
        }
      }
      assert cands[..|agents|] == cands;
    }

    /**
     * The output `runTaskOnAgent` would record for the task `id` run on
     * `agent` now, with `now` the clock reading that marks it running: the
     * output of the agent's run of the row as marked running. An unknown id
     * is never run.
     */
    ghost function RunOutput(agent: BaseAgent, id: nat, now: nat): Output
      reads store`tasks, agent`state, agent`tools, agent`toolOrder, agent.memory`semantic
      requires ToolsValid(agent.tools, agent.toolOrder)
    {
      match UpdateResult(store.tasks, id, Running, Extra(None, Some(agent.definition.id)), now)
      case None => ErrorOutput("")
      case Some(row) => agent.RunOf(row, agent.state.tokenUsage).output
    }

    /**
     * The first step of `runTaskOnAgent`: the row goes to running on the
     * agent. An unknown id leaves the table as it was; the queue never grows,
     * and shrinks when the task was queued.
     */
    method MarkRunning(agent: BaseAgent, task: Task) returns (updated: Option<Task>)
      requires Valid()
      modifies store`tasks, env
      ensures env.clock == old(env.clock) + 1 && env.minted == old(env.minted)
      ensures store.tasks == UpdateRows(old(store.tasks), task.id, Running, Extra(None, Some(agent.definition.id)), old(env.clock) + 1)
      ensures Valid()
      ensures KeptExcept(old(store.tasks), store.tasks, {task.id})
      ensures CountStatus(store.tasks, Queued) <= old(CountStatus(store.tasks, Queued))
      ensures old(IsQueued(store.tasks, task.id)) ==> CountStatus(store.tasks, Queued) < old(CountStatus(store.tasks, Queued))
      ensures updated.None? <==> old(Find(store.tasks, task.id)).None?
      ensures updated.None? ==> store.tasks == old(store.tasks)
      ensures updated == UpdateResult(old(store.tasks), task.id, Running, Extra(None, Some(agent.definition.id)), old(env.clock) + 1)
      ensures updated.Some? ==>
        && updated.value.id == task.id && Find(store.tasks, task.id) == updated
        && updated.value.assignedAgent == Some(agent.definition.id) && updated.value.startedAt.Some?
    {
      var now := env.Now();
      var extra := Extra(None, Some(agent.definition.id));
      UpdateShrinksQueue(store.tasks, task.id, Running, extra, now);
      KeptUpdate(store.tasks, task.id, Running, extra, now);
      UpdateFind(store.tasks, task.id, Running, extra, now, task.id);
      if Find(store.tasks, task.id).None? {
        UpdateUnknown(store.tasks, task.id, Running, extra, now);
      }
      updated := store.UpdateTaskStatus(task.id, Running, extra, now);
    }

    /**
     * The agent runs the task: the run is the one `RunOf` describes, and it
     * concludes as `executeTask` promises; every agent stays a valid member
     * and the task table is untouched.
     */
    method Execute(agent: BaseAgent, t: Task) returns (success: bool, output: Output)
      requires Valid() && agent in Repr
      modifies agent`state, agent`history, memory`episodic, store`logs, env, agent`events, agent`delivered
      ensures old(env.clock) < env.clock && old(env.minted) < env.minted
      ensures Valid()
      ensures success == output.Completion?
      ensures output == old(agent.RunOf(t, agent.state.tokenUsage)).output
      ensures agent.Concluded(t, old(agent.state), old(store.logs), old(agent.events), old(agent.delivered),
                              old(memory.episodic), success, output)
    {
      success, output := agent.ExecuteTask(t);
      forall a | a in Repr
        ensures Member(a)
      {
        if a != agent {
          assert old(Member(a));
        }
      }
    }

    /**
     * The middle of `runTaskOnAgent`: the agent runs the task, and the row
     * gets the verdict and the output of the run.
     */
    method RunAndRecord(agent: BaseAgent, t: Task)
      requires Valid() && agent in Repr
      requires Find(store.tasks, t.id) == Some(t) && t.assignedAgent == Some(agent.definition.id) && t.startedAt.Some?
      modifies store`tasks, store`logs, memory`episodic, env, agent`state, agent`history, agent`events, agent`delivered
      ensures old(env.clock) < env.clock && old(env.minted) < env.minted
      ensures var output := old(agent.RunOf(t, agent.state.tokenUsage)).output;
        store.tasks == UpdateRows(old(store.tasks), t.id, Verdict(output.Completion?, t.requiresApproval),
                                  Extra(Some(output), None), env.clock)
      ensures Valid()
      ensures KeptExcept(old(store.tasks), store.tasks, {t.id})
      ensures CountStatus(store.tasks, Queued) <= old(CountStatus(store.tasks, Queued))
      ensures Find(store.tasks, t.id).Some?
      ensures Settled(Find(store.tasks, t.id).value, agent.definition.id, old(agent.RunOf(t, agent.state.tokenUsage)).output)
    {
      var success, output := Execute(agent, t);
      Record(t, success, output);
    }

    /** The row of a run gets the verdict on its outcome and its output. */
    method Record(t: Task, success: bool, output: Output)
      requires Valid() && Find(store.tasks, t.id) == Some(t) && success == output.Completion?
      modifies store`tasks, env
      ensures env.clock == old(env.clock) + 1 && env.minted == old(env.minted)
      ensures store.tasks == UpdateRows(old(store.tasks), t.id, Verdict(success, t.requiresApproval), Extra(Some(output), None), env.clock)
      ensures Valid()
      ensures KeptExcept(old(store.tasks), store.tasks, {t.id})
      ensures CountStatus(store.tasks, Queued) <= old(CountStatus(store.tasks, Queued))
      ensures Find(store.tasks, t.id) == Some(t.(status := Verdict(success, t.requiresApproval), output := Some(output),
                                                  completedAt := Find(store.tasks, t.id).value.completedAt))
    {
      var status := Verdict(success, t.requiresApproval);
      var later := env.Now();
      UpdateShrinksQueue(store.tasks, t.id, status, Extra(Some(output), None), later);
      KeptUpdate(store.tasks, t.id, status, Extra(Some(output), None), later);
      UpdateFind(store.tasks, t.id, status, Extra(Some(output), None), later, t.id);
      var finished := store.UpdateTaskStatus(t.id, status, Extra(Some(output), None), later);
    }

    /**
     * The rest of `runTaskOnAgent` once the row is running on the agent: the
     * run recorded, then the agent's queue looked at.
     */
    method Settle(agent: BaseAgent, t: Task)
      requires Valid() && agent in Repr
      requires Find(store.tasks, t.id) == Some(t) && t.assignedAgent == Some(agent.definition.id) && t.startedAt.Some?
      modifies store`tasks, store`logs, memory`episodic, env, Repr
      ensures old(env.clock) < env.clock && old(env.minted) < env.minted
      ensures Valid()
      ensures KeptExcept(old(store.tasks), store.tasks, {t.id})
      ensures Find(store.tasks, t.id).Some?
      ensures Settled(Find(store.tasks, t.id).value, agent.definition.id, old(agent.RunOf(t, agent.state.tokenUsage)).output)
      decreases CountStatus(store.tasks, Queued), 2
    {
      ghost var t1 := store.tasks;
      ghost var out := agent.RunOf(t, agent.state.tokenUsage).output;
      RunAndRecord(agent, t);
      ghost var t2 := store.tasks;
      ghost var row := Find(t2, t.id).value;
      CheckQueue(agent.definition.id);
      FindKept(t2, store.tasks, t.id, {});
      assert Find(store.tasks, t.id) == Some(row);
      KeptTrans(t1, t2, store.tasks, {t.id}, {});
    }

    /**
     * `runTaskOnAgent`: the row goes to running on the agent, the agent runs
     * it, the row gets its verdict and output, and the agent's queue is
     * looked at. No row other than this one that was not queued changes.
     */
    method RunTaskOnAgent(agent: BaseAgent, task: Task)
      requires Valid() && agent in Repr
      modifies store`tasks, store`logs, memory`episodic, env, Repr
      ensures old(env.clock) < env.clock && old(env.minted) <= env.minted
      ensures Valid()
      ensures KeptExcept(old(store.tasks), store.tasks, {task.id})
      ensures RanOn(old(store.tasks), store.tasks, task.id, agent.definition.id, old(RunOutput(agent, task.id, env.clock + 1)))
      decreases CountStatus(store.tasks, Queued), if IsQueued(store.tasks, task.id) then 0 else 3
    {
      ghost var t0 := store.tasks;
      var updated := MarkRunning(agent, task);
      if updated.None? {
        return;
      }
      ghost var t1 := store.tasks;
      Settle(agent, updated.value);
      KeptTrans(t0, t1, store.tasks, {task.id}, {task.id});
    }

    /**
     * `checkQueue`: when a queued task is eligible for the agent and the
     * agent is idle, the first one in priority-then-age order is run on it;
     * otherwise nothing changes. No row that was not queued changes.
     */
    method CheckQueue(agentId: string)
      requires Valid()
      modifies store`tasks, store`logs, memory`episodic, env, Repr
      ensures old(env.clock) <= env.clock && old(env.minted) <= env.minted
      ensures Valid()
      ensures KeptExcept(old(store.tasks), store.tasks, {})
      ensures var next := NextQueued(old(store.tasks), Some(agentId));
        var agent := old(GetAgent(agentId));
        && (next.None? || agent.None? || old(agent.value.state.status) != Idle ==> store.tasks == old(store.tasks))
        && (next.Some? && agent.Some? && old(agent.value.state.status) == Idle ==>
              RanOn(old(store.tasks), store.tasks, next.value.id, agentId, old(RunOutput(agent.value, next.value.id, env.clock + 1))))
      decreases CountStatus(store.tasks, Queued), 1
    {
      var next := NextQueued(store.tasks, Some(agentId));
      if next.Some? {
        var agent := GetAgent(agentId);
        if agent.Some? && agent.value.state.status == Idle {
          ghost var t0 := store.tasks;
          NextQueuedSpec(t0, Some(agentId));
          ListedQueued(t0, next.value);
          RunTaskOnAgent(agent.value, next.value);
          KeptQueuedId(t0, store.tasks, next.value.id);
        }
      }
    }

    /** A direct status change of one row, stamped with the next clock reading. */
    method SetStatus(id: nat, status: TaskStatus, extra: Extra)
      requires Valid()
      modifies store`tasks, env
      ensures env.clock == old(env.clock) + 1 && env.minted == old(env.minted)
      ensures Valid()
      ensures store.tasks == UpdateRows(old(store.tasks), id, status, extra, old(env.clock) + 1)
      ensures KeptExcept(old(store.tasks), store.tasks, {id})
    {
      var now := env.Now();
      KeptUpdate(store.tasks, id, status, extra, now);
      var r := store.UpdateTaskStatus(id, status, extra, now);
    }

    /**
     * `assignTask` for a task that names its agent: an unknown agent fails
     * the task, a busy one queues it, an idle one runs it.
     */
    method AssignNamed(task: Task, named: string)
      requires Valid()
      modifies store`tasks, store`logs, memory`episodic, env, Repr
      ensures old(env.clock) < env.clock && old(env.minted) <= env.minted
      ensures Valid()
      ensures KeptExcept(old(store.tasks), store.tasks, {task.id})
      ensures var agent := old(GetAgent(named));
        && (agent.None? ==>
              store.tasks == UpdateRows(old(store.tasks), task.id, Failed,
                                        Extra(Some(ErrorOutput("Agent " + named + " not found")), None), old(env.clock) + 1))
        && (agent.Some? && old(agent.value.state.status) != Idle ==>
              store.tasks == UpdateRows(old(store.tasks), task.id, Queued, NoExtra, old(env.clock) + 1))
        && (agent.Some? && old(agent.value.state.status) == Idle ==>
              RanOn(old(store.tasks), store.tasks, task.id, named, old(RunOutput(agent.value, task.id, env.clock + 1))))
    {
      var agent := GetAgent(named);
      if agent.None? {
        SetStatus(task.id, Failed, Extra(Some(ErrorOutput("Agent " + named + " not found")), None));
        return;
      }
      if agent.value.state.status != Idle {
        SetStatus(task.id, Queued, NoExtra);
        return;
      }
      RunTaskOnAgent(agent.value, task);
    }

    /**
     * `assignTask` for a task without a named agent: the agent `Pick`
     * chooses runs it, and when no agent is idle it is queued. The agent is
     * taken from `Choice`, the value `FindBestAgent` is proved to return.
     */
    method AssignBest(task: Task)
      requires Valid()
      modifies store`tasks, store`logs, memory`episodic, env, Repr
      ensures old(env.clock) < env.clock && old(env.minted) <= env.minted
      ensures Valid()
      ensures KeptExcept(old(store.tasks), store.tasks, {task.id})
      ensures old(Choice(task)).None? ==>
        store.tasks == UpdateRows(old(store.tasks), task.id, Queued, NoExtra, old(env.clock) + 1)
      ensures old(Choice(task)).Some? ==>
        var best := old(Choice(task)).value;
        RanOn(old(store.tasks), store.tasks, task.id, best.definition.id, old(RunOutput(best, task.id, env.clock + 1)))
    {
      var best := Choice(task);
      if best.None? {
        SetStatus(task.id, Queued, NoExtra);
      } else {
        RunTaskOnAgent(best.value, task);
      }
    }

    /**
     * `assignTask`: a named agent that is unknown fails the task, a named
     * agent that is busy queues it, an idle one runs it; without a name the
     * agent `Pick` chooses runs it, and when no agent is idle it is queued.
     */
    method AssignTask(task: Task)
      requires Valid()
      modifies store`tasks, store`logs, memory`episodic, env, Repr
      ensures old(env.clock) < env.clock && old(env.minted) <= env.minted
      ensures Valid()
      ensures KeptExcept(old(store.tasks), store.tasks, {task.id})
      ensures Present(task.assignedAgent) ==>
        var named := task.assignedAgent.value;
        var agent := old(GetAgent(named));
        && (agent.None? ==>
              store.tasks == UpdateRows(old(store.tasks), task.id, Failed,
                                        Extra(Some(ErrorOutput("Agent " + named + " not found")), None), old(env.clock) + 1))
        && (agent.Some? && old(agent.value.state.status) != Idle ==>
              store.tasks == UpdateRows(old(store.tasks), task.id, Queued, NoExtra, old(env.clock) + 1))
        && (agent.Some? && old(agent.value.state.status) == Idle ==>
              RanOn(old(store.tasks), store.tasks, task.id, named, old(RunOutput(agent.value, task.id, env.clock + 1))))
      ensures !Present(task.assignedAgent) ==>
        var best := old(Choice(task));
        && (best.None? ==> store.tasks == UpdateRows(old(store.tasks), task.id, Queued, NoExtra, old(env.clock) + 1))
        && (best.Some? ==> RanOn(old(store.tasks), store.tasks, task.id, best.value.definition.id,
                                 old(RunOutput(best.value, task.id, env.clock + 1))))
    {
      if Present(task.assignedAgent) {
        AssignNamed(task, task.assignedAgent.value);
      } else {
        AssignBest(task);
      }
    }

    // ─── Polling ───────────────────────────────────────

    /**
     * One tick of the polling timer: up to ten queued tasks, as listed when
     * the tick begins, are handed to `assignTask` one after the other. No row
     * that was not queued when the tick began changes.
     */
    method PollTick()
      requires Valid()
      modifies store`tasks, store`logs, memory`episodic, env, Repr
      ensures old(env.clock) <= env.clock && old(env.minted) <= env.minted
      ensures Valid()
      ensures KeptExcept(old(store.tasks), store.tasks, {})
    {
      ghost var t0 := store.tasks;
      var queued := ListTasks(store.tasks, QueuedPage);
      SelectSound(t0, Matching(QueuedPage), PriorityKey, ListLimit(QueuedPage));
      ghost var ids: set<nat> := {};
      for i := 0 to |queued|
        invariant Valid()
        invariant KeptExcept(t0, store.tasks, ids)
        invariant forall id :: id in ids ==> IsQueued(t0, id)
        invariant old(env.clock) <= env.clock && old(env.minted) <= env.minted
      {
        ghost var before := store.tasks;
        ListedQueued(t0, queued[i]);
        AssignTask(queued[i]);
        KeptTrans(t0, before, store.tasks, ids, {queued[i].id});
        ids := ids + {queued[i].id};
      }
    }

    /** `startPolling`: sets the timer once; a second call while it is set changes nothing. */
    method StartPolling(ms: int := 5000)
      modifies this`polling, this`intervalMs
      ensures polling
      ensures old(polling) ==> intervalMs == old(intervalMs)
      ensures !old(polling) ==> intervalMs == ms
    {
      if polling {
        return;
      }
      polling := true;
      intervalMs := ms;
    }

    /** `stopPolling`: clears the timer if one is set. */
    method StopPolling()
      modifies this`polling
      ensures !polling
    {
      if polling {
        polling := false;
      }
    }
  }
}
