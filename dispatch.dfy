/**
 * The three topologies of the run-workflow function, once every provider has
 * a key: sequential chaining, the concurrent fan-out, and the hierarchical
 * director/worker split. Each phase returns the effects it performed, the
 * events it recorded, the tokens it counted, the output text, and the message
 * of the error that ended it, if one did.
 */
module Dispatch {
  import opened Wrappers
  import Gateway
  import Steps
  import SubTasks
  import opened RunModel

  /** Effects a phase may perform: model calls and event inserts for this run, nothing else. */
  ghost predicate PhaseEffects(effects: seq<Effect>, runId: string) {
    forall k :: 0 <= k < |effects| ==> effects[k].CallModel? || (effects[k].EmitEvent? && effects[k].runId == runId)
  }

  lemma PhaseEffectsAppend(a: seq<Effect>, b: seq<Effect>, runId: string)
    requires PhaseEffects(a, runId) && PhaseEffects(b, runId)
    ensures PhaseEffects(a + b, runId)
  {
  }

  /** The event an agent's completion is recorded as, without role or task. */
  function PlainEvent(agent: Agent, c: Gateway.Completion): Event {
    Event(agent.name, c.content, c.tokens, None, None)
  }

  /** Link k of a chain: agent k is sent the input when it is first, otherwise the content of agent k - 1. */
  ghost predicate ChainLink(slots: seq<Slot>, apiKeys: map<string, string>, input: string,
                            calls: seq<Gateway.LlmCall>, events: seq<Event>, k: int) {
    && 0 <= k < |calls| && k < |slots| && k <= |events|
    && calls[k] == CallFor(slots[k].agent, apiKeys, if k == 0 then input else events[k - 1].content)
  }

  /** Event k of a chain is the completion of call k, recorded under agent k's name. */
  ghost predicate ChainEvent(slots: seq<Slot>, answers: Answers, calls: seq<Gateway.LlmCall>, events: seq<Event>, k: int) {
    && 0 <= k < |events| && k < |calls| && k < |slots|
    && answers(k, calls[k]).Success?
    && events[k] == PlainEvent(slots[k].agent, answers(k, calls[k]).value)
  }

  /**
   * The sequential chain over the resolved agents, in order: the first agent is
   * sent the input, every later one the previous agent's content; each success
   * records one event without role; the first failure ends the chain with its
   * message, and no later agent is called.
   */
  ghost predicate SequentialOutcome(slots: seq<Slot>, apiKeys: map<string, string>, input: string, answers: Answers,
                                    calls: seq<Gateway.LlmCall>, events: seq<Event>, failure: Option<string>)
  {
    && |calls| == |events| + (if failure.Some? then 1 else 0) <= |slots|
    && (failure.None? ==> |events| == |slots|)
    && (forall k :: 0 <= k < |calls| ==> ChainLink(slots, apiKeys, input, calls, events, k))
    && (forall k :: 0 <= k < |events| ==> ChainEvent(slots, answers, calls, events, k))
    && (failure.Some? ==> answers(|events|, calls[|events|]) == Failure(failure.value))
  }

  /** A failed chain over some agents is also the failed chain over any longer list that starts with them. */
  lemma SequentialOutcomeExtends(slots: seq<Slot>, more: seq<Slot>, apiKeys: map<string, string>, input: string,
                                 answers: Answers, calls: seq<Gateway.LlmCall>, events: seq<Event>, msg: string)
    requires |slots| <= |more| && more[..|slots|] == slots
    requires SequentialOutcome(slots, apiKeys, input, answers, calls, events, Some(msg))
    ensures SequentialOutcome(more, apiKeys, input, answers, calls, events, Some(msg))
  {
    forall k | 0 <= k < |calls| ensures ChainLink(more, apiKeys, input, calls, events, k) {
      assert ChainLink(slots, apiKeys, input, calls, events, k);
    }
    forall k | 0 <= k < |events| ensures ChainEvent(more, answers, calls, events, k) {
      assert ChainEvent(slots, answers, calls, events, k);
    }
  }

  /** Resolving one more step adds its slot exactly when its agent is found. */
  lemma ResolveStep(steps: seq<Steps.Step>, m: map<string, Agent>, i: nat)
    requires i < |steps|
    ensures Resolve(steps[..i + 1], m) ==
      Resolve(steps[..i], m) + (if steps[i].agentId in m then [Slot(m[steps[i].agentId], i)] else [])
  {
    assert steps[..i + 1][..i] == steps[..i];
  }

  lemma ResolvePrefix(steps: seq<Steps.Step>, m: map<string, Agent>, i: nat)
    requires i <= |steps|
    ensures var p := Resolve(steps[..i], m);
      |p| <= |Resolve(steps, m)| && Resolve(steps, m)[..|p|] == p
    decreases |steps| - i
  {
    if i < |steps| {
      ResolvePrefix(steps, m, i + 1);
      assert steps[..i + 1][..i] == steps[..i];
    } else {
      assert steps[..i] == steps;
    }
  }

  /** The input of the next agent in a chain: the last content, or the original input before any agent ran. */
  function ChainInput(input: string, events: seq<Event>): string {
    if events == [] then input else events[|events| - 1].content
  }

  /** One more successful agent extends the chain by its call and its event. */
  lemma SequentialStep(slots: seq<Slot>, slot: Slot, apiKeys: map<string, string>, input: string, answers: Answers,
                       calls: seq<Gateway.LlmCall>, events: seq<Event>, c: Gateway.Completion)
    requires SequentialOutcome(slots, apiKeys, input, answers, calls, events, None)
    requires answers(|events|, CallFor(slot.agent, apiKeys, ChainInput(input, events))) == Success(c)
    ensures SequentialOutcome(slots + [slot], apiKeys, input, answers,
                              calls + [CallFor(slot.agent, apiKeys, ChainInput(input, events))],
                              events + [PlainEvent(slot.agent, c)], None)
  {
    var slots', calls', events' := slots + [slot], calls + [CallFor(slot.agent, apiKeys, ChainInput(input, events))],
      events + [PlainEvent(slot.agent, c)];
    forall k | 0 <= k < |calls'| ensures ChainLink(slots', apiKeys, input, calls', events', k) {
      if k < |calls| {
        assert ChainLink(slots, apiKeys, input, calls, events, k);
      }
    }
    forall k | 0 <= k < |events'| ensures ChainEvent(slots', answers, calls', events', k) {
      if k < |events| {
        assert ChainEvent(slots, answers, calls, events, k);
      }
    }
  }

  /** A failing agent ends the chain with its message. */
  lemma SequentialStops(slots: seq<Slot>, slot: Slot, apiKeys: map<string, string>, input: string, answers: Answers,
                        calls: seq<Gateway.LlmCall>, events: seq<Event>, msg: string)
    requires SequentialOutcome(slots, apiKeys, input, answers, calls, events, None)
    requires answers(|events|, CallFor(slot.agent, apiKeys, ChainInput(input, events))) == Failure(msg)
    ensures SequentialOutcome(slots + [slot], apiKeys, input, answers,
                              calls + [CallFor(slot.agent, apiKeys, ChainInput(input, events))], events, Some(msg))
  {
    var slots', calls' := slots + [slot], calls + [CallFor(slot.agent, apiKeys, ChainInput(input, events))];
    forall k | 0 <= k < |calls'| ensures ChainLink(slots', apiKeys, input, calls', events, k) {
      if k < |calls| {
        assert ChainLink(slots, apiKeys, input, calls, events, k);
      }
    }
    forall k | 0 <= k < |events| ensures ChainEvent(slots', answers, calls', events, k) {
      assert ChainEvent(slots, answers, calls, events, k);
    }
  }

  /** The chain fails at step i of the sorted steps: the failed chain over the whole list. */
  lemma SequentialStopsAt(sorted: seq<Steps.Step>, agentMap: map<string, Agent>, i: nat, apiKeys: map<string, string>,
                          input: string, answers: Answers, calls: seq<Gateway.LlmCall>, events: seq<Event>, msg: string)
    requires i < |sorted| && sorted[i].agentId in agentMap
    requires SequentialOutcome(Resolve(sorted[..i], agentMap), apiKeys, input, answers, calls, events, None)
    requires answers(|events|, CallFor(agentMap[sorted[i].agentId], apiKeys, ChainInput(input, events))) == Failure(msg)
    ensures SequentialOutcome(Resolve(sorted, agentMap), apiKeys, input, answers,
                              calls + [CallFor(agentMap[sorted[i].agentId], apiKeys, ChainInput(input, events))], events, Some(msg))
  {
    var slot := Slot(agentMap[sorted[i].agentId], i);
    ResolveStep(sorted, agentMap, i);
    SequentialStops(Resolve(sorted[..i], agentMap), slot, apiKeys, input, answers, calls, events, msg);
    ResolvePrefix(sorted, agentMap, i + 1);
    SequentialOutcomeExtends(Resolve(sorted[..i + 1], agentMap), Resolve(sorted, agentMap), apiKeys, input, answers,
                             calls + [CallFor(slot.agent, apiKeys, ChainInput(input, events))], events, msg);
  }

  /** The state of the chain after the first i sorted steps, none of which failed. */
  ghost predicate Chained(sorted: seq<Steps.Step>, agentMap: map<string, Agent>, apiKeys: map<string, string>,
                          runId: string, input: string, answers: Answers, i: int,
                          effects: seq<Effect>, events: seq<Event>, tokens: int, output: string)
  {
    && 0 <= i <= |sorted|
    && SequentialOutcome(Resolve(sorted[..i], agentMap), apiKeys, input, answers, CallsOf(effects), events, None)
    && EventsOf(effects) == events && PhaseEffects(effects, runId)
    && tokens == SumTokens(events)
    && output == ChainInput(input, events)
  }

  /** A step whose agent is not found leaves the chain as it is. */
  lemma ChainedSkip(sorted: seq<Steps.Step>, agentMap: map<string, Agent>, apiKeys: map<string, string>,
                    runId: string, input: string, answers: Answers, i: nat,
                    effects: seq<Effect>, events: seq<Event>, tokens: int, output: string)
    requires i < |sorted| && sorted[i].agentId !in agentMap
    requires Chained(sorted, agentMap, apiKeys, runId, input, answers, i, effects, events, tokens, output)
    ensures Chained(sorted, agentMap, apiKeys, runId, input, answers, i + 1, effects, events, tokens, output)
  {
    ResolveStep(sorted, agentMap, i);
    assert Resolve(sorted[..i], agentMap) + [] == Resolve(sorted[..i], agentMap);
  }

  /** A found agent that answers adds its call and its event; its content is the next input. */
  lemma ChainedFound(sorted: seq<Steps.Step>, agentMap: map<string, Agent>, apiKeys: map<string, string>,
                     runId: string, input: string, answers: Answers, i: nat,
                     effects: seq<Effect>, events: seq<Event>, tokens: int, output: string, c: Gateway.Completion)
    requires i < |sorted| && sorted[i].agentId in agentMap
    requires Chained(sorted, agentMap, apiKeys, runId, input, answers, i, effects, events, tokens, output)
    requires answers(|events|, CallFor(agentMap[sorted[i].agentId], apiKeys, output)) == Success(c)
    ensures var agent := agentMap[sorted[i].agentId];
      Chained(sorted, agentMap, apiKeys, runId, input, answers, i + 1,
              effects + [CallModel(CallFor(agent, apiKeys, output))] + [EmitEvent(runId, PlainEvent(agent, c))],
              events + [PlainEvent(agent, c)], tokens + c.tokens, c.content)
  {
    var agent := agentMap[sorted[i].agentId];
    var call, event := CallFor(agent, apiKeys, output), PlainEvent(agent, c);
    var effects' := effects + [CallModel(call)];
    ResolveStep(sorted, agentMap, i);
    AppendCall(effects, call);
    AppendEvent(effects', runId, event);
    AppendTokens(events, event);
    SequentialStep(Resolve(sorted[..i], agentMap), Slot(agent, i), apiKeys, input, answers, CallsOf(effects), events, c);
    PhaseEffectsAppend(effects, [CallModel(call)], runId);
    PhaseEffectsAppend(effects', [EmitEvent(runId, event)], runId);
  }

  /** A found agent that fails ends the chain over all the sorted steps with its message. */
  lemma ChainedFails(sorted: seq<Steps.Step>, agentMap: map<string, Agent>, apiKeys: map<string, string>,
                     runId: string, input: string, answers: Answers, i: nat,
                     effects: seq<Effect>, events: seq<Event>, tokens: int, output: string, msg: string)
    requires i < |sorted| && sorted[i].agentId in agentMap
    requires Chained(sorted, agentMap, apiKeys, runId, input, answers, i, effects, events, tokens, output)
    requires answers(|events|, CallFor(agentMap[sorted[i].agentId], apiKeys, output)) == Failure(msg)
    ensures var effects' := effects + [CallModel(CallFor(agentMap[sorted[i].agentId], apiKeys, output))];
      && SequentialOutcome(Resolve(sorted, agentMap), apiKeys, input, answers, CallsOf(effects'), events, Some(msg))
      && EventsOf(effects') == events && PhaseEffects(effects', runId)
  {
    var call := CallFor(agentMap[sorted[i].agentId], apiKeys, output);
    AppendCall(effects, call);
    PhaseEffectsAppend(effects, [CallModel(call)], runId);
    SequentialStopsAt(sorted, agentMap, i, apiKeys, input, answers, CallsOf(effects), events, msg);
  }

  /**
   * The sequential topology: steps sorted by `order`; an agent not found is
   * skipped; each agent is sent the current input and its content becomes the
   * next input; a failing call ends the phase with its message. The output is
   * the last content, or the input when no agent ran.
   */
  method RunSequential(steps: seq<Steps.Step>, agentMap: map<string, Agent>, apiKeys: map<string, string>,
                       runId: string, input: string, answers: Answers)
    returns (effects: seq<Effect>, events: seq<Event>, tokens: int, output: string, failure: Option<string>)
    ensures SequentialOutcome(Resolve(Steps.SortByOrder(steps), agentMap), apiKeys, input, answers,
                              CallsOf(effects), events, failure)
    ensures EventsOf(effects) == events && PhaseEffects(effects, runId)
    ensures tokens == SumTokens(events)
    ensures failure.None? ==> output == ChainInput(input, events)
  {
    var sorted := Steps.SortByOrder(steps);
    effects, events, tokens, output, failure := [], [], 0, input, None;
    assert sorted[..0] == [];
    var i := 0;
    while i < |sorted|
      invariant Chained(sorted, agentMap, apiKeys, runId, input, answers, i, effects, events, tokens, output)
    {
      if sorted[i].agentId in agentMap {
        var agent := agentMap[sorted[i].agentId];
        var call := CallFor(agent, apiKeys, output);
        var answer := answers(|events|, call);
        if answer.Failure? {
          ChainedFails(sorted, agentMap, apiKeys, runId, input, answers, i, effects, events, tokens, output, answer.error);
          effects := effects + [CallModel(call)];
          failure := Some(answer.error);
          return;
        }
        var event := PlainEvent(agent, answer.value);
        ChainedFound(sorted, agentMap, apiKeys, runId, input, answers, i, effects, events, tokens, output, answer.value);
        effects := effects + [CallModel(call)] + [EmitEvent(runId, event)];
        events := events + [event];
        tokens := tokens + answer.value.tokens;
        output := answer.value.content;
      } else {
        ChainedSkip(sorted, agentMap, apiKeys, runId, input, answers, i, effects, events, tokens, output);
      }
      i := i + 1;
    }
    assert sorted[..i] == sorted;
  }

  /** The event a fan-out branch records: concurrent branches carry no role, hierarchical workers carry theirs and their task. */
  function BranchEvent(agent: Agent, c: Gateway.Completion, task: string, asWorker: bool): Event {
    if asWorker then Event(agent.name, c.content, c.tokens, Some(Worker), Some(task))
    else PlainEvent(agent, c)
  }

  ghost predicate TasksFit(slots: seq<Slot>, tasks: seq<string>) {
    forall k :: 0 <= k < |slots| ==> slots[k].index < |tasks|
  }

  /** Branch k of a fan-out calls agent k with the sub-task of its step. */
  ghost predicate FanCall(slots: seq<Slot>, apiKeys: map<string, string>, tasks: seq<string>,
                          calls: seq<Gateway.LlmCall>, k: int) {
    && 0 <= k < |slots| && k < |calls| && slots[k].index < |tasks|
    && calls[k] == CallFor(slots[k].agent, apiKeys, tasks[slots[k].index])
  }

  /** Branch k of a fan-out succeeded and its event is recorded at position k. */
  ghost predicate FanEvent(slots: seq<Slot>, tasks: seq<string>, asWorkers: bool,
                           results: seq<Result<Gateway.Completion, string>>, events: seq<Event>, k: int) {
    && 0 <= k < |slots| && k < |results| && k < |events| && slots[k].index < |tasks|
    && results[k].Success?
    && events[k] == BranchEvent(slots[k].agent, results[k].value, tasks[slots[k].index], asWorkers)
  }

  /** The calls of a fan-out: one per resolved step, in step order, each with its step's task. */
  ghost predicate LaunchedCalls(slots: seq<Slot>, apiKeys: map<string, string>, tasks: seq<string>, calls: seq<Gateway.LlmCall>) {
    && |calls| == |slots|
    && forall k :: 0 <= k < |slots| ==> FanCall(slots, apiKeys, tasks, calls, k)
  }

  /** The outcome of each call of a fan-out, call k being the (base + k)-th of the run. */
  ghost function Answered(answers: Answers, base: nat, calls: seq<Gateway.LlmCall>): (r: seq<Result<Gateway.Completion, string>>)
    ensures |r| == |calls| && forall k :: 0 <= k < |calls| ==> r[k] == answers(base + k, calls[k])
  {
    seq(|calls|, k requires 0 <= k < |calls| => answers(base + k, calls[k]))
  }

  /**
   * A fan-out over the resolved agents: branch k is the (base + k)-th model call
   * of the run and is sent the sub-task of its step. If every branch succeeds,
   * each records one event, in branch order; if any fails, the phase fails
   * with the message of one failing branch and records no event.
   */
  ghost predicate FanOutOutcome(slots: seq<Slot>, apiKeys: map<string, string>, tasks: seq<string>, asWorkers: bool,
                                base: nat, answers: Answers, calls: seq<Gateway.LlmCall>, events: seq<Event>,
                                failure: Option<string>)
  {
    && LaunchedCalls(slots, apiKeys, tasks, calls)
    && var results := Answered(answers, base, calls);
    && (failure.None? <==> forall k :: 0 <= k < |results| ==> results[k].Success?)
    && (failure.Some? ==> events == [] && exists k :: 0 <= k < |results| && results[k] == Failure(failure.value))
    && (failure.None? ==>
          && |events| == |slots|
          && forall k :: 0 <= k < |slots| ==> FanEvent(slots, tasks, asWorkers, results, events, k))
  }

  /** Launching one more branch extends the calls and their outcomes by one. */
  lemma LaunchStep(slots: seq<Slot>, slot: Slot, apiKeys: map<string, string>, tasks: seq<string>,
                   answers: Answers, base: nat, calls: seq<Gateway.LlmCall>)
    requires LaunchedCalls(slots, apiKeys, tasks, calls) && slot.index < |tasks|
    ensures LaunchedCalls(slots + [slot], apiKeys, tasks, calls + [CallFor(slot.agent, apiKeys, tasks[slot.index])])
    ensures Answered(answers, base, calls + [CallFor(slot.agent, apiKeys, tasks[slot.index])])
      == Answered(answers, base, calls) + [answers(base + |calls|, CallFor(slot.agent, apiKeys, tasks[slot.index]))]
  {
    var slots', calls' := slots + [slot], calls + [CallFor(slot.agent, apiKeys, tasks[slot.index])];
    forall k | 0 <= k < |slots'| ensures FanCall(slots', apiKeys, tasks, calls', k) {
      if k < |slots| {
        assert FanCall(slots, apiKeys, tasks, calls, k);
      }
    }
  }

  /** The state of a fan-out after its first i steps: the branches of the found agents, launched in step order. */
  ghost predicate Launched(steps: seq<Steps.Step>, agentMap: map<string, Agent>, apiKeys: map<string, string>,
                           tasks: seq<string>, base: nat, answers: Answers, i: int,
                           slots: seq<Slot>, results: seq<Result<Gateway.Completion, string>>, effects: seq<Effect>)
  {
    && 0 <= i <= |steps|
    && slots == Resolve(steps[..i], agentMap)
    && LaunchedCalls(slots, apiKeys, tasks, CallsOf(effects))
    && results == Answered(answers, base, CallsOf(effects))
    && EventsOf(effects) == [] && forall k :: 0 <= k < |effects| ==> effects[k].CallModel?
  }

  /** A step whose agent is not found launches nothing. */
  lemma LaunchSkip(steps: seq<Steps.Step>, agentMap: map<string, Agent>, apiKeys: map<string, string>,
                   tasks: seq<string>, base: nat, answers: Answers, i: nat,
                   slots: seq<Slot>, results: seq<Result<Gateway.Completion, string>>, effects: seq<Effect>)
    requires i < |steps| && steps[i].agentId !in agentMap
    requires Launched(steps, agentMap, apiKeys, tasks, base, answers, i, slots, results, effects)
    ensures Launched(steps, agentMap, apiKeys, tasks, base, answers, i + 1, slots, results, effects)
  {
    ResolveStep(steps, agentMap, i);
  }

  /** A step whose agent is found launches one more branch, the (base + |slots|)-th call of the run. */
  lemma LaunchFound(steps: seq<Steps.Step>, agentMap: map<string, Agent>, apiKeys: map<string, string>,
                    tasks: seq<string>, base: nat, answers: Answers, i: nat,
                    slots: seq<Slot>, results: seq<Result<Gateway.Completion, string>>, effects: seq<Effect>)
    requires i < |steps| == |tasks| && steps[i].agentId in agentMap
    requires Launched(steps, agentMap, apiKeys, tasks, base, answers, i, slots, results, effects)
    ensures var slot := Slot(agentMap[steps[i].agentId], i);
      var call := CallFor(slot.agent, apiKeys, tasks[i]);
      Launched(steps, agentMap, apiKeys, tasks, base, answers, i + 1,
               slots + [slot], results + [answers(base + |slots|, call)], effects + [CallModel(call)])
  {
    var slot := Slot(agentMap[steps[i].agentId], i);
    var call := CallFor(slot.agent, apiKeys, tasks[i]);
    ResolveStep(steps, agentMap, i);
    AppendCall(effects, call);
    LaunchStep(slots, slot, apiKeys, tasks, answers, base, CallsOf(effects));
  }

  /**
   * The branches of `steps.map(async ...)`: every step whose agent is found
   * calls the model, in step order, before any result is looked at. Branch k
   * is the (base + k)-th call of the run.
   */
  method Launch(steps: seq<Steps.Step>, agentMap: map<string, Agent>, apiKeys: map<string, string>,
                tasks: seq<string>, base: nat, answers: Answers)
    returns (slots: seq<Slot>, results: seq<Result<Gateway.Completion, string>>, effects: seq<Effect>)
    requires |tasks| == |steps|
    ensures slots == Resolve(steps, agentMap)
    ensures LaunchedCalls(slots, apiKeys, tasks, CallsOf(effects))
    ensures results == Answered(answers, base, CallsOf(effects))
    ensures EventsOf(effects) == [] && forall k :: 0 <= k < |effects| ==> effects[k].CallModel?
  {
    slots, results, effects := [], [], [];
    assert steps[..0] == [];
    var i := 0;
    while i < |steps|
      invariant Launched(steps, agentMap, apiKeys, tasks, base, answers, i, slots, results, effects)
    {
      if steps[i].agentId in agentMap {
        var slot := Slot(agentMap[steps[i].agentId], i);
        var call := CallFor(slot.agent, apiKeys, tasks[i]);
        LaunchFound(steps, agentMap, apiKeys, tasks, base, answers, i, slots, results, effects);
        results := results + [answers(base + |slots|, call)];
        effects := effects + [CallModel(call)];
        slots := slots + [slot];
      } else {
        LaunchSkip(steps, agentMap, apiKeys, tasks, base, answers, i, slots, results, effects);
      }
      i := i + 1;
    }
    assert steps[..i] == steps;
  }

  lemma CollectStep(slots: seq<Slot>, tasks: seq<string>, asWorkers: bool,
                    results: seq<Result<Gateway.Completion, string>>, events: seq<Event>, event: Event)
    requires |events| < |slots| && forall k :: 0 <= k < |events| ==> FanEvent(slots, tasks, asWorkers, results, events, k)
    requires FanEvent(slots, tasks, asWorkers, results, events + [event], |events|)
    ensures forall k :: 0 <= k <= |events| ==> FanEvent(slots, tasks, asWorkers, results, events + [event], k)
  {
    forall k | 0 <= k < |events| ensures FanEvent(slots, tasks, asWorkers, results, events + [event], k) {
      assert FanEvent(slots, tasks, asWorkers, results, events, k);
    }
  }

  /**
   * The loop over the joined results: each appends its event, its tokens and
   * its block to the output, which starts as `start`.
   */
  method Collect(slots: seq<Slot>, results: seq<Result<Gateway.Completion, string>>, tasks: seq<string>,
                 asWorkers: bool, runId: string, start: string)
    returns (effects: seq<Effect>, events: seq<Event>, tokens: int, output: string)
    requires TasksFit(slots, tasks) && |results| == |slots|
    requires forall k :: 0 <= k < |results| ==> results[k].Success?
    ensures |events| == |slots|
    ensures forall k :: 0 <= k < |slots| ==> FanEvent(slots, tasks, asWorkers, results, events, k)
    ensures CallsOf(effects) == [] && EventsOf(effects) == events && PhaseEffects(effects, runId)
    ensures tokens == SumTokens(events)
    ensures output == start + Blocks(events)
  {
    effects, events, tokens, output := [], [], 0, start;
    var j := 0;
    while j < |slots|
      invariant 0 <= j <= |slots| && |events| == j
      invariant forall k :: 0 <= k < j ==> FanEvent(slots, tasks, asWorkers, results, events, k)
      invariant CallsOf(effects) == [] && EventsOf(effects) == events && PhaseEffects(effects, runId)
      invariant tokens == SumTokens(events)
      invariant output == start + Blocks(events)
    {
      var event := BranchEvent(slots[j].agent, results[j].value, tasks[slots[j].index], asWorkers);
      CollectStep(slots, tasks, asWorkers, results, events, event);
      AppendEvent(effects, runId, event);
      AppendTokens(events, event);
      effects := effects + [EmitEvent(runId, event)];
      events := events + [event];
      tokens := tokens + event.tokens;
      output := output + Block(event);
      j := j + 1;
    }
  }

  /**
   * `Promise.all` over the branches, then the aggregation loop: if any branch
   * failed, the phase fails with the message of one failing branch (whichever
   * rejection the runtime reports first) and records nothing.
   */
  method FanOut(steps: seq<Steps.Step>, agentMap: map<string, Agent>, apiKeys: map<string, string>, runId: string,
                tasks: seq<string>, asWorkers: bool, base: nat, start: string, answers: Answers)
    returns (effects: seq<Effect>, events: seq<Event>, tokens: int, output: string, failure: Option<string>)
    requires |tasks| == |steps|
    ensures FanOutOutcome(Resolve(steps, agentMap), apiKeys, tasks, asWorkers, base, answers, CallsOf(effects), events, failure)
    ensures EventsOf(effects) == events && PhaseEffects(effects, runId)
    ensures tokens == SumTokens(events)
    ensures failure.None? ==> output == start + Blocks(events)
  {
    var slots, results, launched := Launch(steps, agentMap, apiKeys, tasks, base, answers);
    ghost var calls := CallsOf(launched);
    if exists k :: 0 <= k < |results| && results[k].Failure? {
      var k :| 0 <= k < |results| && results[k].Failure?;
      FanOutFailed(slots, apiKeys, tasks, asWorkers, base, answers, calls, k);
      return launched, [], 0, start, Some(results[k].error);
    }
    LaunchedFit(slots, apiKeys, tasks, calls);
    var collected;
    collected, events, tokens, output := Collect(slots, results, tasks, asWorkers, runId, start);
    FanOutSucceeded(slots, apiKeys, tasks, asWorkers, base, answers, calls, events);
    EffectsAppend(launched, collected);
    assert CallsOf(launched) + [] == calls;
    PhaseEffectsAppend(launched, collected, runId);
    effects := launched + collected;
    failure := None;
  }

  lemma LaunchedFit(slots: seq<Slot>, apiKeys: map<string, string>, tasks: seq<string>, calls: seq<Gateway.LlmCall>)
    requires LaunchedCalls(slots, apiKeys, tasks, calls)
    ensures TasksFit(slots, tasks)
  {
    forall k | 0 <= k < |slots| ensures slots[k].index < |tasks| {
      assert FanCall(slots, apiKeys, tasks, calls, k);
    }
  }

  lemma FanOutFailed(slots: seq<Slot>, apiKeys: map<string, string>, tasks: seq<string>, asWorkers: bool,
                     base: nat, answers: Answers, calls: seq<Gateway.LlmCall>, k: nat)
    requires LaunchedCalls(slots, apiKeys, tasks, calls)
    requires k < |calls| && answers(base + k, calls[k]).Failure?
    ensures FanOutOutcome(slots, apiKeys, tasks, asWorkers, base, answers, calls, [], Some(answers(base + k, calls[k]).error))
  {
    var results := Answered(answers, base, calls);
    assert results[k] == Failure(answers(base + k, calls[k]).error);
  }

  lemma FanOutSucceeded(slots: seq<Slot>, apiKeys: map<string, string>, tasks: seq<string>, asWorkers: bool,
                        base: nat, answers: Answers, calls: seq<Gateway.LlmCall>, events: seq<Event>)
    requires LaunchedCalls(slots, apiKeys, tasks, calls)
    requires var results := Answered(answers, base, calls);
      && (forall k :: 0 <= k < |results| ==> results[k].Success?)
      && |events| == |slots|
      && forall k :: 0 <= k < |slots| ==> FanEvent(slots, tasks, asWorkers, results, events, k)
    ensures FanOutOutcome(slots, apiKeys, tasks, asWorkers, base, answers, calls, events, None)
  {
  }

  /** The sub-task of every worker position, from the director's reply. */
  function WorkerTasks(directorText: string, input: string, workerCount: nat): (tasks: seq<string>)
    ensures |tasks| == workerCount
    ensures forall idx :: 0 <= idx < workerCount ==> tasks[idx] == SubTasks.WorkerTask(directorText, input, workerCount, idx)
  {
    var subTasks := SubTasks.SubTaskList(directorText, input, workerCount);
    seq(workerCount, idx requires 0 <= idx < workerCount => SubTasks.TaskFor(subTasks, idx, input))
  }

  /** The director's event: its completion, with role `director` and no task. */
  function DirectorEvent(director: Agent, d: Gateway.Completion): Event {
    Event(director.name, d.content, d.tokens, Some(Director), None)
  }

  /**
   * A hierarchical phase whose director agent was found: the director is sent
   * the decomposition prompt as call 0; a failure ends the phase with no event;
   * otherwise its reply is recorded first, and the workers fan out from call 1,
   * each with the sub-task the reply assigns to its position.
   */
  ghost predicate DirectedOutcome(director: Agent, workers: seq<Steps.Step>, agentMap: map<string, Agent>,
                                  apiKeys: map<string, string>, input: string, answers: Answers,
                                  calls: seq<Gateway.LlmCall>, events: seq<Event>, failure: Option<string>)
  {
    var call := CallFor(director, apiKeys, SubTasks.DirectorPrompt(|workers|, input));
    && |calls| >= 1 && calls[0] == call
    && match answers(0, call)
       case Failure(m) => calls == [call] && events == [] && failure == Some(m)
       case Success(d) =>
         && |events| >= 1 && events[0] == DirectorEvent(director, d)
         && FanOutOutcome(Resolve(workers, agentMap), apiKeys, WorkerTasks(d.content, input, |workers|), true, 1,
                          answers, calls[1..], events[1..], failure)
  }

  /**
   * The hierarchical topology over the sorted steps: the director is the first
   * of them and the rest are the workers; a director whose agent is not found
   * ends the phase before any call.
   */
  ghost predicate HierarchicalOutcome(sorted: seq<Steps.Step>, agentMap: map<string, Agent>, apiKeys: map<string, string>,
                                      input: string, answers: Answers, calls: seq<Gateway.LlmCall>, events: seq<Event>,
                                      failure: Option<string>)
    requires sorted != []
  {
    if sorted[0].agentId !in agentMap then
      calls == [] && events == [] && failure == Some("Director agent not found")
    else
      DirectedOutcome(agentMap[sorted[0].agentId], sorted[1..], agentMap, apiKeys, input, answers, calls, events, failure)
  }

  lemma DirectedThenWorkers(director: Agent, workers: seq<Steps.Step>, agentMap: map<string, Agent>,
                            apiKeys: map<string, string>, input: string, answers: Answers, d: Gateway.Completion,
                            workerCalls: seq<Gateway.LlmCall>, workerEvents: seq<Event>, failure: Option<string>)
    requires answers(0, CallFor(director, apiKeys, SubTasks.DirectorPrompt(|workers|, input))) == Success(d)
    requires FanOutOutcome(Resolve(workers, agentMap), apiKeys, WorkerTasks(d.content, input, |workers|), true, 1,
                           answers, workerCalls, workerEvents, failure)
    ensures DirectedOutcome(director, workers, agentMap, apiKeys, input, answers,
                            [CallFor(director, apiKeys, SubTasks.DirectorPrompt(|workers|, input))] + workerCalls,
                            [DirectorEvent(director, d)] + workerEvents, failure)
  {
    var call := CallFor(director, apiKeys, SubTasks.DirectorPrompt(|workers|, input));
    assert ([call] + workerCalls)[1..] == workerCalls;
    assert ([DirectorEvent(director, d)] + workerEvents)[1..] == workerEvents;
  }

  /**
   * The hierarchical topology once the director's agent is found: the director
   * decomposes the input, then the workers run concurrently on their tasks.
   * The output is the input followed by one block per worker; the director's
   * reply is not among them.
   */
  method RunDirected(director: Agent, workers: seq<Steps.Step>, agentMap: map<string, Agent>, apiKeys: map<string, string>,
                     runId: string, input: string, answers: Answers)
    returns (effects: seq<Effect>, events: seq<Event>, tokens: int, output: string, failure: Option<string>)
    ensures DirectedOutcome(director, workers, agentMap, apiKeys, input, answers, CallsOf(effects), events, failure)
    ensures EventsOf(effects) == events && PhaseEffects(effects, runId)
    ensures tokens == SumTokens(events)
    ensures failure.None? ==> |events| >= 1 && output == input + Blocks(events[1..])
  {
    var call := CallFor(director, apiKeys, SubTasks.DirectorPrompt(|workers|, input));
    var answer := answers(0, call);
    if answer.Failure? {
      AppendCall([], call);
      return [CallModel(call)], [], 0, input, Some(answer.error);
    }
    var d := answer.value;
    var directorEvent := DirectorEvent(director, d);
    var tasks := WorkerTasks(d.content, input, |workers|);
    var workerEffects, workerEvents, workerTokens, workerOutput, workerFailure :=
      FanOut(workers, agentMap, apiKeys, runId, tasks, true, 1, input, answers);
    var call0 := [CallModel(call), EmitEvent(runId, directorEvent)];
    DirectedJoin(director, workers, agentMap, apiKeys, runId, input, answers, d,
                 workerEffects, workerEvents, workerFailure);
    effects := call0 + workerEffects;
    events := [directorEvent] + workerEvents;
    tokens := d.tokens + workerTokens;
    output := workerOutput;
    failure := workerFailure;
  }

  /** The director's call and event followed by a fan-out of the workers make a directed phase. */
  lemma DirectedJoin(director: Agent, workers: seq<Steps.Step>, agentMap: map<string, Agent>, apiKeys: map<string, string>,
                     runId: string, input: string, answers: Answers, d: Gateway.Completion,
                     workerEffects: seq<Effect>, workerEvents: seq<Event>, failure: Option<string>)
    requires answers(0, CallFor(director, apiKeys, SubTasks.DirectorPrompt(|workers|, input))) == Success(d)
    requires FanOutOutcome(Resolve(workers, agentMap), apiKeys, WorkerTasks(d.content, input, |workers|), true, 1,
                           answers, CallsOf(workerEffects), workerEvents, failure)
    requires EventsOf(workerEffects) == workerEvents && PhaseEffects(workerEffects, runId)
    ensures var effects := [CallModel(CallFor(director, apiKeys, SubTasks.DirectorPrompt(|workers|, input))),
                            EmitEvent(runId, DirectorEvent(director, d))] + workerEffects;
      && DirectedOutcome(director, workers, agentMap, apiKeys, input, answers, CallsOf(effects),
                         [DirectorEvent(director, d)] + workerEvents, failure)
      && EventsOf(effects) == [DirectorEvent(director, d)] + workerEvents
      && PhaseEffects(effects, runId)
      && SumTokens([DirectorEvent(director, d)] + workerEvents) == d.tokens + SumTokens(workerEvents)
      && ([DirectorEvent(director, d)] + workerEvents)[1..] == workerEvents
  {
    var call := CallFor(director, apiKeys, SubTasks.DirectorPrompt(|workers|, input));
    var directorEvent := DirectorEvent(director, d);
    DirectedThenWorkers(director, workers, agentMap, apiKeys, input, answers, d,
                        CallsOf(workerEffects), workerEvents, failure);
    var head := [CallModel(call), EmitEvent(runId, directorEvent)];
    AppendCall([], call);
    AppendEvent([CallModel(call)], runId, directorEvent);
    assert [CallModel(call)] + [EmitEvent(runId, directorEvent)] == head;
    EffectsAppend(head, workerEffects);
    PhaseEffectsAppend(head, workerEffects, runId);
    AppendTokens([], directorEvent);
    SumTokensAppend([directorEvent], workerEvents);
    assert ([directorEvent] + workerEvents)[1..] == workerEvents;
  }

  /**
   * The hierarchical topology: the first step after sorting by `order` is the
   * director and the others are its workers.
   */
  method RunHierarchical(steps: seq<Steps.Step>, agentMap: map<string, Agent>, apiKeys: map<string, string>,
                         runId: string, input: string, answers: Answers)
    returns (effects: seq<Effect>, events: seq<Event>, tokens: int, output: string, failure: Option<string>)
    requires steps != []
    ensures HierarchicalOutcome(Steps.SortByOrder(steps), agentMap, apiKeys, input, answers, CallsOf(effects), events, failure)
    ensures EventsOf(effects) == events && PhaseEffects(effects, runId)
    ensures tokens == SumTokens(events)
    ensures failure.None? ==> |events| >= 1 && output == input + Blocks(events[1..])
  {
    var sorted := Steps.SortByOrder(steps);
    if sorted[0].agentId !in agentMap {
      return [], [], 0, input, Some("Director agent not found");
    }
    effects, events, tokens, output, failure :=
      RunDirected(agentMap[sorted[0].agentId], sorted[1..], agentMap, apiKeys, runId, input, answers);
  }
}
