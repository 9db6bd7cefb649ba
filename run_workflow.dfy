/**
 * The run-workflow request handler: it authenticates the caller, validates the
 * body, loads the workflow, records a Run in state `running`, loads the agents
 * the steps name and a key for each of their providers, executes the topology
 * the workflow names, and records the outcome on the Run.
 */
module RunWorkflow {
  import opened Wrappers
  import Gateway
  import Steps
  import opened RunModel
  import Dispatch

  /** The two body fields the handler reads; "" stands for a missing or empty value. */
  datatype RunFields = RunFields(workflowId: string, input: string)

  /**
   * An invocation: the `Authorization` header ("" when absent), the user the
   * auth service resolves it to (`None` on an auth error), and the parsed body
   * or the message of the parse error.
   */
  datatype RunRequest = RunRequest(authHeader: string, user: Option<string>, body: Result<RunFields, string>)

  /**
   * The tables as the caller may see them: workflows by id, the agents in the
   * order the agents table returns them, and the caller's stored key per provider.
   */
  datatype Stores = Stores(workflows: map<string, Workflow>, agents: seq<Agent>, keys: map<string, string>)

  /** The JSON reply: `{error}` with a status, or `{run_id, status[, error]}`. */
  datatype Response =
    | ErrorResponse(httpStatus: int, error: string)
    | RunResponse(httpStatus: int, runId: string, status: RunStatus, runError: Option<string>)

  /** `[...new Set(steps.map(s => s.agent_id))]`. */
  function AgentIds(steps: seq<Steps.Step>): (ids: seq<string>)
    ensures forall id :: id in ids <==> exists k :: 0 <= k < |steps| && steps[k].agentId == id
  {
    var named := seq(|steps|, k requires 0 <= k < |steps| => steps[k].agentId);
    assert forall id :: id in named <==> exists k :: 0 <= k < |steps| && steps[k].agentId == id by {
      forall id | id in named ensures exists k :: 0 <= k < |steps| && steps[k].agentId == id {
        var k :| 0 <= k < |named| && named[k] == id;
      }
      forall id | exists k :: 0 <= k < |steps| && steps[k].agentId == id ensures id in named {
        var k :| 0 <= k < |steps| && steps[k].agentId == id;
        assert named[k] == id;
      }
    }
    Steps.Dedup(named)
  }

  /** `.in("id", ids)`: the rows whose id is listed, in table order. */
  function WithIds(agents: seq<Agent>, ids: seq<string>): (r: seq<Agent>)
    ensures forall a :: a in r <==> a in agents && a.id in ids
  {
    if agents == [] then []
    else
      var rest := WithIds(agents[..|agents| - 1], ids);
      var last := agents[|agents| - 1];
      assert forall a :: a in agents <==> a in agents[..|agents| - 1] || a == last;
      if last.id in ids then rest + [last] else rest
  }

  /** The agents a run of the workflow fetches. */
  function RunAgents(stores: Stores, wf: Workflow): seq<Agent> {
    WithIds(stores.agents, AgentIds(wf.steps))
  }

  /** `[...new Set(agents.map(a => a.model_provider))]`. */
  function Providers(agents: seq<Agent>): (ps: seq<string>)
    ensures forall p :: p in ps <==> exists a :: a in agents && a.modelProvider == p
  {
    var named := seq(|agents|, k requires 0 <= k < |agents| => agents[k].modelProvider);
    assert forall p :: p in named <==> exists a :: a in agents && a.modelProvider == p by {
      forall p | p in named ensures exists a :: a in agents && a.modelProvider == p {
        var k :| 0 <= k < |named| && named[k] == p;
        assert agents[k] in agents;
      }
      forall p | exists a :: a in agents && a.modelProvider == p ensures p in named {
        var a :| a in agents && a.modelProvider == p;
        var k :| 0 <= k < |agents| && agents[k] == a;
        assert named[k] == p;
      }
    }
    Steps.Dedup(named)
  }

  /** The keys the run holds: the caller's stored key for each provider that has one. */
  ghost function KeyMap(providers: seq<string>, keys: map<string, string>): map<string, string> {
    map p | p in keys && p in providers :: keys[p]
  }

  /** The loop that looks up a key for every provider and keeps the ones found. */
  method LoadKeys(providers: seq<string>, keys: map<string, string>) returns (apiKeys: map<string, string>)
    ensures apiKeys == KeyMap(providers, keys)
  {
    apiKeys := map[];
    for i := 0 to |providers|
      invariant apiKeys == KeyMap(providers[..i], keys)
    {
      assert providers[..i + 1] == providers[..i] + [providers[i]];
      if providers[i] in keys {
        apiKeys := apiKeys[providers[i] := keys[providers[i]]];
      }
    }
    assert providers[..|providers|] == providers;
  }

  /** Once a prefix has an element outside `known`, the whole list has the same first one. */
  lemma FirstOutsidePrefix(s: seq<string>, i: nat, known: set<string>)
    requires i <= |s| && Steps.FirstOutside(s[..i], known).Some?
    ensures Steps.FirstOutside(s, known) == Steps.FirstOutside(s[..i], known)
  {
    var p := s[..i];
    var v := Steps.FirstOutside(p, known).value;
    var a :| 0 <= a < |p| && p[a] == v && forall j :: 0 <= j < a ==> p[j] in known;
    assert s[a] !in known;
    var w := Steps.FirstOutside(s, known).value;
    var b :| 0 <= b < |s| && s[b] == w && forall j :: 0 <= j < b ==> s[j] in known;
    assert forall j :: 0 <= j < a ==> p[j] == s[j];
    assert b <= a;
    assert s[b] !in known;
  }

  /** The loop that reports the first provider without a key, if any. */
  method FirstMissing(providers: seq<string>, apiKeys: map<string, string>) returns (missing: Option<string>)
    ensures missing == Steps.FirstOutside(providers, apiKeys.Keys)
  {
    for i := 0 to |providers|
      invariant Steps.FirstOutside(providers[..i], apiKeys.Keys) == None
    {
      assert providers[..i + 1] == providers[..i] + [providers[i]];
      Steps.FirstOutsideAppend(providers[..i], providers[i], apiKeys.Keys);
      if providers[i] !in apiKeys {
        FirstOutsidePrefix(providers, i + 1, apiKeys.Keys);
        return Some(providers[i]);
      }
    }
    assert providers[..|providers|] == providers;
    return None;
  }

  lemma {:induction false} FirstOutsideSameMembers(s: seq<string>, k1: set<string>, k2: set<string>)
    requires forall i :: 0 <= i < |s| ==> (s[i] in k1 <==> s[i] in k2)
    ensures Steps.FirstOutside(s, k1) == Steps.FirstOutside(s, k2)
  {
    if s != [] {
      assert forall i :: 0 <= i < |s[1..]| ==> s[1..][i] == s[i + 1];
      FirstOutsideSameMembers(s[1..], k1, k2);
    }
  }

  /** The provider reported as missing is the first one for which the caller stores no key. */
  lemma MissingIsUnstored(providers: seq<string>, keys: map<string, string>)
    ensures Steps.FirstOutside(providers, KeyMap(providers, keys).Keys) == Steps.FirstOutside(providers, keys.Keys)
  {
    FirstOutsideSameMembers(providers, KeyMap(providers, keys).Keys, keys.Keys);
  }

  /** With no provider missing, every fetched agent is called with the key stored for its provider. */
  lemma EveryAgentKeyed(agents: seq<Agent>, keys: map<string, string>, a: Agent)
    requires Steps.FirstOutside(Providers(agents), keys.Keys).None?
    requires a in agents
    ensures a.modelProvider in KeyMap(Providers(agents), keys)
    ensures CallFor(a, KeyMap(Providers(agents), keys), "").apiKey == keys[a.modelProvider]
  {
    var ps := Providers(agents);
    assert a.modelProvider in ps;
    var k :| 0 <= k < |ps| && ps[k] == a.modelProvider;
  }

  /** A workflow whose steps are empty names no agent, so its run stops at "No agents found". */
  lemma {:induction false} AgentsNeedSteps(stores: Stores, wf: Workflow)
    requires RunAgents(stores, wf) != []
    ensures wf.steps != []
  {
    var a := RunAgents(stores, wf)[0];
    assert a in RunAgents(stores, wf);
    assert a.id in AgentIds(wf.steps);
  }

  /**
   * What the executed topology did. `sequential`, `concurrent` and
   * `hierarchical` run as their phases describe; a concurrent run sends every
   * agent the input. Any other type runs no agent and succeeds with the input.
   */
  ghost predicate ExecutionOutcome(wf: Workflow, agentMap: map<string, Agent>, apiKeys: map<string, string>,
                                   input: string, answers: Answers, calls: seq<Gateway.LlmCall>, events: seq<Event>,
                                   failure: Option<string>, output: string)
  {
    if wf.workflowType == "sequential" then
      && Dispatch.SequentialOutcome(Resolve(Steps.SortByOrder(wf.steps), agentMap), apiKeys, input, answers,
                                    calls, events, failure)
      && (failure.None? ==> output == Dispatch.ChainInput(input, events))
    else if wf.workflowType == "concurrent" then
      && Dispatch.FanOutOutcome(Resolve(wf.steps, agentMap), apiKeys, SameInput(wf.steps, input), false, 0, answers,
                                calls, events, failure)
      && (failure.None? ==> output == input + Blocks(events))
    else if wf.workflowType == "hierarchical" then
      && wf.steps != []
      && Dispatch.HierarchicalOutcome(Steps.SortByOrder(wf.steps), agentMap, apiKeys, input, answers, calls, events, failure)
      && (failure.None? ==> |events| >= 1 && output == input + Blocks(events[1..]))
    else
      calls == [] && events == [] && failure == None && output == input
  }

  /** The prompt of every concurrent branch: the run's input. */
  function SameInput(steps: seq<Steps.Step>, input: string): (tasks: seq<string>)
    ensures |tasks| == |steps| && forall k :: 0 <= k < |tasks| ==> tasks[k] == input
  {
    seq(|steps|, _ => input)
  }

  /** The `try` block that runs the workflow's topology, up to the final update. */
  method Execute(wf: Workflow, agentMap: map<string, Agent>, apiKeys: map<string, string>, runId: string,
                 input: string, answers: Answers)
    returns (effects: seq<Effect>, events: seq<Event>, tokens: int, output: string, failure: Option<string>)
    requires wf.workflowType == "hierarchical" ==> wf.steps != []
    ensures ExecutionOutcome(wf, agentMap, apiKeys, input, answers, CallsOf(effects), events, failure, output)
    ensures EventsOf(effects) == events && Dispatch.PhaseEffects(effects, runId)
    ensures tokens == SumTokens(events)
  {
    if wf.workflowType == "sequential" {
      effects, events, tokens, output, failure := Dispatch.RunSequential(wf.steps, agentMap, apiKeys, runId, input, answers);
    } else if wf.workflowType == "concurrent" {
      effects, events, tokens, output, failure :=
        Dispatch.FanOut(wf.steps, agentMap, apiKeys, runId, SameInput(wf.steps, input), false, 0, input, answers);
    } else if wf.workflowType == "hierarchical" {
      effects, events, tokens, output, failure := Dispatch.RunHierarchical(wf.steps, agentMap, apiKeys, runId, input, answers);
    } else {
      effects, events, tokens, output, failure := [], [], 0, input, None;
    }
  }

  /** The request passes every check made before the Run is inserted. */
  ghost predicate Admitted(req: RunRequest, stores: Stores) {
    && req.authHeader != "" && req.user.Some? && req.body.Success?
    && req.body.value.workflowId != "" && req.body.value.input != ""
    && req.body.value.workflowId in stores.workflows
  }

  /** The update that marks the Run failed with a message before any agent ran. */
  function FailedEarly(message: string): RunUpdate {
    RunUpdate(Failed, Some(message), None, None, None)
  }

  /**
   * A run that reached execution: the insert, the phase's calls and events,
   * and one final update that records every event and the token total. A
   * success answers 200 with the Run's id; a failure records its message and
   * answers 500.
   */
  ghost predicate RunCompleted(trace: seq<Effect>, response: Response, userId: string, fields: RunFields, wf: Workflow,
                               agentMap: map<string, Agent>, apiKeys: map<string, string>, runId: string, answers: Answers)
  {
    && |trace| >= 2
    && trace[0] == InsertRun(userId, fields.workflowId, wf.name, fields.input)
    && Dispatch.PhaseEffects(trace[1..|trace| - 1], runId)
    && trace[|trace| - 1].UpdateRun? && trace[|trace| - 1].runId == runId
    && var u := trace[|trace| - 1].update;
    && var events := EventsOf(trace);
    && u.events == Some(events) && u.tokensUsed == Some(SumTokens(events))
    && (u.status == Succeeded || u.status == Failed)
    && (u.status == Succeeded ==> u.error == None && u.output.Some? && response == RunResponse(200, runId, Succeeded, None))
    && (u.status == Failed ==> u.error.Some? && u.output == None && response == RunResponse(500, runId, Failed, u.error))
    && ExecutionOutcome(wf, agentMap, apiKeys, fields.input, answers, CallsOf(trace), events,
                        if u.status == Succeeded then None else u.error, u.output.GetOr(""))
  }

  /**
   * One invocation of the function. `runInsert` is the outcome of the Run
   * insert (the new Run's id or the database's message) and `llm` the
   * providers' replies to the run's model calls. The trace lists the writes
   * and model calls in the order they happen; every check that fails before
   * the insert answers 400 with its message and writes nothing.
   */
  method HandleRunRequest(req: RunRequest, stores: Stores, runInsert: Result<string, string>, llm: Oracle)
    returns (response: Response, trace: seq<Effect>)
    ensures req.authHeader == "" ==> response == ErrorResponse(400, "Missing authorization header") && trace == []
    ensures req.authHeader != "" && req.user.None? ==> response == ErrorResponse(400, "Unauthorized") && trace == []
    ensures req.authHeader != "" && req.user.Some? && req.body.Failure? ==>
      response == ErrorResponse(400, req.body.error) && trace == []
    ensures (&& req.authHeader != "" && req.user.Some? && req.body.Success?
             && (req.body.value.workflowId == "" || req.body.value.input == "")) ==>
      response == ErrorResponse(400, "workflow_id and input are required") && trace == []
    ensures (&& req.authHeader != "" && req.user.Some? && req.body.Success?
             && req.body.value.workflowId != "" && req.body.value.input != ""
             && req.body.value.workflowId !in stores.workflows) ==>
      response == ErrorResponse(400, "Workflow not found") && trace == []
    ensures Admitted(req, stores) && runInsert.Failure? ==> response == ErrorResponse(400, runInsert.error) && trace == []
    ensures Admitted(req, stores) && runInsert.Success? ==>
      RunOutcome(req.user.value, req.body.value, stores, runInsert.value, llm, response, trace)
  {
    if req.authHeader == "" {
      return ErrorResponse(400, "Missing authorization header"), [];
    }
    if req.user.None? {
      return ErrorResponse(400, "Unauthorized"), [];
    }
    if req.body.Failure? {
      return ErrorResponse(400, req.body.error), [];
    }
    var fields := req.body.value;
    if fields.workflowId == "" || fields.input == "" {
      return ErrorResponse(400, "workflow_id and input are required"), [];
    }
    if fields.workflowId !in stores.workflows {
      return ErrorResponse(400, "Workflow not found"), [];
    }
    if runInsert.Failure? {
      return ErrorResponse(400, runInsert.error), [];
    }
    response, trace := RunInserted(req.user.value, fields, stores, runInsert.value, llm);
  }

  /**
   * What follows the insert of the Run. Without agents, or with a provider for
   * which the caller stores no key, the Run is marked failed and the reply is
   * 400; otherwise the run completes.
   */
  ghost predicate RunOutcome(userId: string, fields: RunFields, stores: Stores, runId: string, llm: Oracle,
                             response: Response, trace: seq<Effect>)
    requires fields.workflowId in stores.workflows
  {
    var wf := stores.workflows[fields.workflowId];
    var agents := RunAgents(stores, wf);
    var providers := Providers(agents);
    var insert := InsertRun(userId, fields.workflowId, wf.name, fields.input);
    if agents == [] then
      && trace == [insert, UpdateRun(runId, FailedEarly("No agents found"))]
      && response == ErrorResponse(400, "No agents found for this workflow")
    else
      match Steps.FirstOutside(providers, stores.keys.Keys)
      case Some(p) =>
        && trace == [insert, UpdateRun(runId, FailedEarly("No API key found for provider: " + p + ". Add one in Secrets."))]
        && response == ErrorResponse(400, "No API key for " + p)
      case None =>
        RunCompleted(trace, response, userId, fields, wf, AgentMap(agents), KeyMap(providers, stores.keys),
                     runId, ModelAnswers(llm))
  }

  method RunInserted(userId: string, fields: RunFields, stores: Stores, runId: string, llm: Oracle)
    returns (response: Response, trace: seq<Effect>)
    requires fields.workflowId in stores.workflows
    ensures RunOutcome(userId, fields, stores, runId, llm, response, trace)
  {
    var wf := stores.workflows[fields.workflowId];
    var insert := InsertRun(userId, fields.workflowId, wf.name, fields.input);
    var agents := WithIds(stores.agents, AgentIds(wf.steps));
    if agents == [] {
      return ErrorResponse(400, "No agents found for this workflow"), [insert, UpdateRun(runId, FailedEarly("No agents found"))];
    }
    var providers := Providers(agents);
    var apiKeys := LoadKeys(providers, stores.keys);
    var missing := FirstMissing(providers, apiKeys);
    MissingIsUnstored(providers, stores.keys);
    if missing.Some? {
      var p := missing.value;
      response := ErrorResponse(400, "No API key for " + p);
      trace := [insert, UpdateRun(runId, FailedEarly("No API key found for provider: " + p + ". Add one in Secrets."))];
      return;
    }
    AgentsNeedSteps(stores, wf);
    response, trace := Complete(userId, fields, wf, AgentMap(agents), apiKeys, runId, ModelAnswers(llm));
  }

  /** Execution and the final update of the Run, after every provider has a key. */
  method Complete(userId: string, fields: RunFields, wf: Workflow, agentMap: map<string, Agent>, apiKeys: map<string, string>,
                  runId: string, answers: Answers)
    returns (response: Response, trace: seq<Effect>)
    requires wf.workflowType == "hierarchical" ==> wf.steps != []
    ensures RunCompleted(trace, response, userId, fields, wf, agentMap, apiKeys, runId, answers)
  {
    var insert := InsertRun(userId, fields.workflowId, wf.name, fields.input);
    var effects, events, tokens, output, failure := Execute(wf, agentMap, apiKeys, runId, fields.input, answers);
    var update;
    if failure.None? {
      update := RunUpdate(Succeeded, None, Some(output), Some(events), Some(tokens));
      response := RunResponse(200, runId, Succeeded, None);
    } else {
      update := RunUpdate(Failed, failure, None, Some(events), Some(tokens));
      response := RunResponse(500, runId, Failed, failure);
    }
    Finished(insert, effects, runId, update);
    trace := [insert] + effects + [UpdateRun(runId, update)];
  }

  /** The insert, a phase and the final update: the calls and events are the phase's own. */
  lemma Finished(insert: Effect, effects: seq<Effect>, runId: string, update: RunUpdate)
    requires insert.InsertRun?
    ensures var trace := [insert] + effects + [UpdateRun(runId, update)];
      && CallsOf(trace) == CallsOf(effects) && EventsOf(trace) == EventsOf(effects)
      && trace[1..|trace| - 1] == effects
  {
    var trace := [insert] + effects + [UpdateRun(runId, update)];
    EffectsAppend([insert], effects);
    EffectsAppend([insert] + effects, [UpdateRun(runId, update)]);
    assert CallsOf([insert]) == [] && EventsOf([insert]) == [] by {
      assert [insert][..0] == [];
    }
    assert CallsOf([UpdateRun(runId, update)]) == [] && EventsOf([UpdateRun(runId, update)]) == [] by {
      assert [UpdateRun(runId, update)][..0] == [];
    }
    assert trace[1..|trace| - 1] == effects;
  }
}
