/**
 * The records the run-workflow function reads and writes: agents, workflows,
 * the events of a run, the updates of the Run row, and the external effects
 * (writes and model calls) in the order the function performs them.
 */
module RunModel {
  import opened Wrappers
  import Gateway
  import Steps

  /** A row of the `agents` table, as far as a run uses it. */
  datatype Agent = Agent(
    id: string,
    name: string,
    systemPrompt: string,
    modelProvider: string,
    modelName: string,
    temperature: real)

  /** A row of the `workflows` table. An absent `steps` column reads as the empty list. */
  datatype Workflow = Workflow(name: string, workflowType: string, steps: seq<Steps.Step>)

  datatype Role = Director | Worker

  /** One entry of the run's `events` list; hierarchical runs also record the role and the worker's task. */
  datatype Event = Event(agentName: string, content: string, tokens: int, role: Option<Role>, task: Option<string>)

  datatype RunStatus = Running | Succeeded | Failed

  /** The columns one update of the Run row sets; `None` leaves a column as it was. */
  datatype RunUpdate = RunUpdate(
    status: RunStatus,
    error: Option<string>,
    output: Option<string>,
    events: Option<seq<Event>>,
    tokensUsed: Option<int>)

  /**
   * What a run does to the world, in order: the insert of the Run row (status
   * `running`), a `callLLM` invocation, a `run_events` insert of kind `chunk`,
   * an update of the Run row.
   */
  datatype Effect =
    | InsertRun(userId: string, workflowId: string, workflowName: string, input: string)
    | CallModel(call: Gateway.LlmCall)
    | EmitEvent(runId: string, event: Event)
    | UpdateRun(runId: string, update: RunUpdate)

  /** The model provider's HTTP replies: the reply to the `n`-th model call of the run. */
  type Oracle = (nat, Gateway.HttpRequest) -> Gateway.HttpResponse

  /** The outcome of each model call of a run: the `n`-th call's completion or the message it failed with. */
  type Answers = (nat, Gateway.LlmCall) -> Result<Gateway.Completion, string>

  function Respond(llm: Oracle, n: nat): Gateway.HttpRequest -> Gateway.HttpResponse {
    req => llm(n, req)
  }

  /** What `callLLM` returns for each call when the provider replies as `llm` says. */
  function ModelAnswers(llm: Oracle): Answers {
    (n: nat, call: Gateway.LlmCall) => Gateway.CallLlm(call, Respond(llm, n))
  }

  /** `new Map(agents.map(a => [a.id, a]))`: the agents by id. */
  function AgentMap(agents: seq<Agent>): (m: map<string, Agent>)
    ensures forall id :: id in m <==> exists a :: a in agents && a.id == id
    ensures forall id :: id in m ==> m[id] in agents && m[id].id == id
  {
    if agents == [] then map[]
    else
      var last := agents[|agents| - 1];
      assert agents == agents[..|agents| - 1] + [last];
      AgentMap(agents[..|agents| - 1])[last.id := last]
  }

  /** When several agents share an id, the map keeps the last of them. */
  lemma {:induction false} AgentMapLastWins(agents: seq<Agent>, i: nat)
    requires i < |agents|
    requires forall j :: i < j < |agents| ==> agents[j].id != agents[i].id
    ensures AgentMap(agents)[agents[i].id] == agents[i]
  {
    if i < |agents| - 1 {
      AgentMapLastWins(agents[..|agents| - 1], i);
    }
  }

  /** An agent that a step resolves to, with the step's position in the list it came from. */
  datatype Slot = Slot(agent: Agent, index: nat)

  /** The steps whose agent is found in the map, in list order: the steps a loop does not skip. */
  function Resolve(steps: seq<Steps.Step>, m: map<string, Agent>): (r: seq<Slot>)
    ensures forall k :: 0 <= k < |r| ==>
      r[k].index < |steps| && steps[r[k].index].agentId in m && r[k].agent == m[steps[r[k].index].agentId]
    ensures forall k, l :: 0 <= k < l < |r| ==> r[k].index < r[l].index
  {
    if steps == [] then []
    else
      var n := |steps| - 1;
      var r := Resolve(steps[..n], m);
      if steps[n].agentId in m then r + [Slot(m[steps[n].agentId], n)] else r
  }

  /** No step whose agent is found is left out. */
  lemma {:induction false} ResolveComplete(steps: seq<Steps.Step>, m: map<string, Agent>, i: nat)
    requires i < |steps| && steps[i].agentId in m
    ensures exists k :: 0 <= k < |Resolve(steps, m)| && Resolve(steps, m)[k].index == i
  {
    var n := |steps| - 1;
    var r := Resolve(steps[..n], m);
    if i == n {
      assert Resolve(steps, m)[|r|].index == i;
    } else {
      ResolveComplete(steps[..n], m, i);
      var k :| 0 <= k < |r| && r[k].index == i;
      assert Resolve(steps, m)[k] == r[k];
    }
  }

  /**
   * The `callLLM` arguments for an agent and a message, with the key stored for
   * the agent's provider. The key check runs before any call, so the key is
   * always there when a call is made; an absent key would read as "".
   */
  function CallFor(agent: Agent, apiKeys: map<string, string>, message: string): (c: Gateway.LlmCall)
    ensures agent.modelProvider in apiKeys ==> c.apiKey == apiKeys[agent.modelProvider]
    ensures c.provider == agent.modelProvider && c.model == agent.modelName && c.systemPrompt == agent.systemPrompt
    ensures c.userMessage == message && c.temperature == agent.temperature
  {
    var key := if agent.modelProvider in apiKeys then apiKeys[agent.modelProvider] else "";
    Gateway.LlmCall(key, agent.modelProvider, agent.modelName, agent.systemPrompt, message, agent.temperature)
  }

  /**
   * What a provider receives for an agent's call: with the key stored for its
   * provider, the request carries that key, the agent's model, its system
   * prompt and the message; an agent whose provider is unknown is refused
   * before anything is sent.
   */
  lemma CallForReachesProvider(agent: Agent, apiKeys: map<string, string>, message: string)
    requires agent.modelProvider in apiKeys
    ensures var r := Gateway.BuildRequest(CallFor(agent, apiKeys, message));
      && (Gateway.ParseProvider(agent.modelProvider).None? ==> r == Failure("Unsupported provider: " + agent.modelProvider))
      && (Gateway.ParseProvider(agent.modelProvider).Some? ==>
            && r.Success?
            && Gateway.ReceivedKey(r.value) == Some(apiKeys[agent.modelProvider])
            && Gateway.ReceivedModel(r.value) == agent.modelName
            && Gateway.ReceivedPrompt(r.value) == Some((agent.systemPrompt, message)))
  {
  }

  function SumTokens(events: seq<Event>): int {
    if events == [] then 0 else SumTokens(events[..|events| - 1]) + events[|events| - 1].tokens
  }

  /** The text a fan-out appends to the output for one agent: a blank line, the agent's name in brackets, its content. */
  function Block(e: Event): string {
    "\n\n[" + e.agentName + "]: " + e.content
  }

  function Blocks(events: seq<Event>): string {
    if events == [] then "" else Blocks(events[..|events| - 1]) + Block(events[|events| - 1])
  }

  /** The model calls of a list of effects, in order. */
  function CallsOf(effects: seq<Effect>): seq<Gateway.LlmCall> {
    if effects == [] then []
    else CallsOf(effects[..|effects| - 1]) + (match effects[|effects| - 1] case CallModel(c) => [c] case _ => [])
  }

  /** The events a list of effects inserts into `run_events`, in order. */
  function EventsOf(effects: seq<Effect>): seq<Event> {
    if effects == [] then []
    else EventsOf(effects[..|effects| - 1]) + (match effects[|effects| - 1] case EmitEvent(_, e) => [e] case _ => [])
  }

  lemma {:induction false} SumTokensAppend(a: seq<Event>, b: seq<Event>)
    ensures SumTokens(a + b) == SumTokens(a) + SumTokens(b)
    decreases |b|
  {
    if b == [] {
      assert a + b == a;
    } else {
      assert (a + b)[..|a + b| - 1] == a + b[..|b| - 1];
      SumTokensAppend(a, b[..|b| - 1]);
    }
  }

  lemma {:induction false} BlocksAppend(a: seq<Event>, b: seq<Event>)
    ensures Blocks(a + b) == Blocks(a) + Blocks(b)
    decreases |b|
  {
    if b == [] {
      assert a + b == a;
    } else {
      var p, last := b[..|b| - 1], b[|b| - 1];
      assert (a + b)[..|a + b| - 1] == a + p;
      assert Blocks(a + b) == Blocks(a + p) + Block(last);
      BlocksAppend(a, p);
      ConcatAssoc(Blocks(a), Blocks(p), Block(last));
    }
  }

  lemma ConcatAssoc(x: string, y: string, z: string)
    ensures (x + y) + z == x + (y + z)
  {
  }

  lemma {:induction false} EffectsAppend(a: seq<Effect>, b: seq<Effect>)
    ensures CallsOf(a + b) == CallsOf(a) + CallsOf(b)
    ensures EventsOf(a + b) == EventsOf(a) + EventsOf(b)
    decreases |b|
  {
    if b == [] {
      assert a + b == a;
    } else {
      assert (a + b)[..|a + b| - 1] == a + b[..|b| - 1];
      EffectsAppend(a, b[..|b| - 1]);
    }
  }

  lemma AppendCall(effects: seq<Effect>, call: Gateway.LlmCall)
    ensures CallsOf(effects + [CallModel(call)]) == CallsOf(effects) + [call]
    ensures EventsOf(effects + [CallModel(call)]) == EventsOf(effects)
  {
    assert (effects + [CallModel(call)])[..|effects|] == effects;
  }

  lemma AppendEvent(effects: seq<Effect>, runId: string, e: Event)
    ensures CallsOf(effects + [EmitEvent(runId, e)]) == CallsOf(effects)
    ensures EventsOf(effects + [EmitEvent(runId, e)]) == EventsOf(effects) + [e]
  {
    assert (effects + [EmitEvent(runId, e)])[..|effects|] == effects;
  }

  lemma AppendTokens(events: seq<Event>, e: Event)
    ensures SumTokens(events + [e]) == SumTokens(events) + e.tokens
    ensures Blocks(events + [e]) == Blocks(events) + Block(e)
  {
    assert (events + [e])[..|events|] == events;
  }
}
