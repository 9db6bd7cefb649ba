# Nano Claw Swarms: the workflow run coordinator, in Dafny

Nano Claw Swarms runs multi-agent LLM workflows. A workflow names agents in an
ordered list of steps and one of three topologies:

- **sequential**: each agent is sent the previous agent's reply;
- **concurrent**: every agent is sent the same input and the replies are joined;
- **hierarchical**: a director splits the work and workers run the parts.

The `run-workflow` edge function runs one workflow. It performs these steps in order:

1. It authenticates the caller and validates the request.
2. It records a Run in state `running`.
3. It loads the agents and one API key per provider.
4. It calls the providers through `callLLM`, which normalises OpenAI, Anthropic and Groq into `{content, tokens}`.
5. It records one event per reply.
6. It finishes the Run as `succeeded` or `failed`.

The console pages around it also appear in the model:

- the workflow editor keeps the steps numbered 0..n-1;
- the Runs page accumulates streamed text per run;
- the organisation context selects the current organisation and the user's role.

The model is organised as follows:

- `gateway.dfy` (module `Gateway`): `callLLM`. Building the request and reading the reply are pure functions. The HTTP exchange is a function parameter.
- `text.dfy` (module `Text`): decimal printing of numbers and JavaScript `trim`.
- `steps.dfy` (module `Steps`): workflow steps, the stable sort by `order`, and `[...new Set(xs)]`.
- `json_strings.dfy` (module `JsonStrings`): `JSON.parse` restricted to arrays of JSON strings, with a renderer as its partner.
- `subtasks.dfy` (module `SubTasks`): the director's prompt, the bracket span found by `/\[[\s\S]*\]/`, and each worker's task.
- `run_model.dfy` (module `RunModel`): agents, events, Run updates, and the effects of a run, in order.
- `dispatch.dfy` (module `Dispatch`): the three topologies, as methods with loops, each proved against a predicate that describes its outcome.
- `run_workflow.dfy` (module `RunWorkflow`): the request handler.
- `workflow_editor.dfy` (module `WorkflowEditor`), `runs_view.dfy` (module `RunsView`) and `org_context.dfy` (module `OrgState`): the console pieces. The organisation context is a class whose methods update its fields.

The model treats the outside world as inputs:

- **Tables** are values: workflows by id, the agent rows in table order, and the caller's key per provider.
- **The Run insert** is an input: the new id, or the database's message.
- **The providers** form an oracle: `llm(n, request)` is the HTTP reply to the `n`-th model call of the run.
- **The handler's output** is a response plus a trace. The trace holds the Run insert, every model call, every `run_events` insert and the Run updates. The contracts fix the order of the model calls among themselves and of the event inserts among themselves (see `Dispatch.PhaseEffects` under "Left out").
- **`fetch`** either rejects with a message (a network, DNS or TLS failure) or gives a reply: a status, the body text, and the body read as JSON, which may be `null`.
- **`Promise.all`**: when several branches fail, which message wins depends on timing. The model picks any one failing branch.

Behaviours of the code a reader may not expect:

- Authentication is checked before the body fields.
- The hierarchical sub-task span runs from the first `[` to the last `]`, not to a balanced bracket.
- The concurrent output follows the stored step order, not the sorted one.
- The hierarchical output is the input plus the worker blocks, without the director's text.
- The director is the first step after sorting, whatever its `order`.
- A step whose agent is not found is skipped. The exception is the hierarchical director: its absence fails the run with `Director agent not found`. Otherwise the run fails only when no agent at all is found. In both cases the Run row already exists.
- The Run is created directly in state `running`.
- A concurrent or worker phase with one failing branch records no event and no token from any branch of that phase. This includes branches whose calls succeeded and consumed tokens.

## Model

| member | source | states |
|---|---|---|
| Gateway.ParseProvider | supabase/functions/run-workflow/index.ts:36-74 | exactly `openai`, `anthropic` and `groq` are providers (case-sensitive), and each maps back to its own name |
| Gateway.BuildRequest | supabase/functions/run-workflow/index.ts:32-74 | an unknown provider fails with `Unsupported provider: <p>`; a known one gets its endpoint; the provider reads back exactly the call's key, model, temperature, system prompt and user message; Anthropic also gets `max_tokens` 4096 and version `2023-06-01` |
| Gateway.Normalise | supabase/functions/run-workflow/index.ts:87-99 | the completion a reply yields; NormaliseReadsOwnShape proves each provider reads only its own reply fields, and SuccessNeedsOkReply that a successful call's completion is exactly this reading of an ok, non-`null` body |
| Gateway.NormaliseReadsOwnShape | supabase/functions/run-workflow/index.ts:89-99 | a provider's completion depends only on its own reply fields |
| Gateway.CallLlm | supabase/functions/run-workflow/index.ts:24-100 | an unknown provider fails; otherwise one request is sent; a rejected `fetch` fails with its message; a non-ok reply fails with `<provider> API error (<status>): <body>`; an unparsable body fails with the parser's message; a `null` body fails with the TypeError of the first field read; otherwise the reply is normalised |
| Gateway.SuccessNeedsOkReply | supabase/functions/run-workflow/index.ts:76-99 | a call succeeds only on an ok reply whose body is JSON other than `null`, and its completion is that body normalised |
| Gateway.UnsupportedProviderSendsNothing | supabase/functions/run-workflow/index.ts:72-80 | an unsupported provider's result is the same whatever the network does |
| Gateway.OneRequestPerCall | supabase/functions/run-workflow/index.ts:76-87 | a supported call depends on the network only through the reply to its one request |
| Gateway.NotOkFails | supabase/functions/run-workflow/index.ts:82-85 | a non-ok reply always fails, with a message that starts with the provider and ends with the reply body verbatim |
| Text.NatToString | supabase/functions/run-workflow/index.ts:84 | the decimal text of a number: digits only, at least one, no leading zero |
| Text.NatToStringRoundTrip | supabase/functions/run-workflow/index.ts:84 | reading the printed digits back gives the number |
| Text.NatToStringInjective | supabase/functions/run-workflow/index.ts:274 | different worker counts print differently in the director's prompt |
| Text.Trim | src/pages/console/Runs.tsx:83-87 | the result is an infix of the input with only whitespace cut on both sides, and it neither starts nor ends with whitespace |
| Text.TrimIdempotent | src/pages/console/Runs.tsx:87 | trimming twice is trimming once |
| Text.TrimEmptyIff | src/pages/console/Runs.tsx:83 | the trimmed input is empty exactly when the input is all whitespace |
| Steps.SortByOrder | supabase/functions/run-workflow/index.ts:209 | `steps.sort((a, b) => a.order - b.order)` as an insertion sort of the same length; SortIsSorted, SortIsPermutation and SortIsStable prove it ascends, permutes and is stable |
| Steps.SortIsSorted | supabase/functions/run-workflow/index.ts:209 | the sorted steps ascend by `order` |
| Steps.SortIsPermutation | supabase/functions/run-workflow/index.ts:209 | the sorted steps are the same steps, each as often as before |
| Steps.SortIsStable | supabase/functions/run-workflow/index.ts:209 | steps that share an `order` keep their relative order |
| Steps.SortKeepsSorted | supabase/functions/run-workflow/index.ts:209 | an ascending list sorts to itself |
| Steps.DenseIsSorted | supabase/functions/run-workflow/index.ts:209 | steps numbered 0..n-1 in list order run in list order |
| Steps.SortHead | supabase/functions/run-workflow/index.ts:265-268 | the director is a step of lowest `order`, and the earliest such step in the stored list |
| Steps.Dedup | supabase/functions/run-workflow/index.ts:158 | de-duplication keeps exactly the values of the input, each once |
| Steps.FirstOutside | supabase/functions/run-workflow/index.ts:187-199 | none is reported exactly when every element is known; otherwise the first unknown element is reported |
| Steps.DedupFirstOutside | supabase/functions/run-workflow/index.ts:172-188 | de-duplicating the providers does not change which provider is reported first as missing |
| RunModel.AgentMap | supabase/functions/run-workflow/index.ts:169 | the map holds exactly the fetched ids, and each entry is a fetched agent with that id |
| RunModel.AgentMapLastWins | supabase/functions/run-workflow/index.ts:169 | when ids repeat, the last row with the id wins |
| RunModel.Resolve | supabase/functions/run-workflow/index.ts:240-242 | the resolved steps are steps whose agent is found, in list order, each with the agent the map gives |
| RunModel.ResolveComplete | supabase/functions/run-workflow/index.ts:210-211 | no step whose agent is found is skipped |
| RunModel.CallFor | supabase/functions/run-workflow/index.ts:213-214 | the arguments of an agent's call; CallForReachesProvider proves what the provider then receives, and RunWorkflow.EveryAgentKeyed that the key is always the stored one |
| RunModel.CallForReachesProvider | supabase/functions/run-workflow/index.ts:36-74 | an agent's call reaches a known provider with the key stored for its provider, the agent's model and system prompt, and the message; an unknown provider is refused with `Unsupported provider: <p>` |
| RunModel.SumTokensAppend | supabase/functions/run-workflow/index.ts:202-216 | the token total of two event lists is the sum of their totals |
| RunModel.BlocksAppend | supabase/functions/run-workflow/index.ts:254 | the appended output of two event lists is the join of their outputs |
| JsonStrings.ParseStringArray | supabase/functions/run-workflow/index.ts:285 | `JSON.parse` of an array of JSON strings with optional whitespace: it succeeds only on text that opens with `[` after whitespace; ArrayRoundTrip proves every rendered array parses back, and TrailingTextRefused that trailing text is refused |
| JsonStrings.ArrayRoundTrip | supabase/functions/run-workflow/index.ts:285 | every array of strings, once written as JSON, parses back to itself |
| JsonStrings.StringTailRoundTrip | supabase/functions/run-workflow/index.ts:285 | a written string, escapes included, reads back up to its closing quote |
| JsonStrings.TrailingTextRefused | supabase/functions/run-workflow/index.ts:285 | an array followed by non-whitespace text does not parse |
| SubTasks.BracketSpan | supabase/functions/run-workflow/index.ts:284 | no span exactly when no `[` precedes a `]`; otherwise the span is the leftmost, greedy match of `/\[[\s\S]*\]/` |
| SubTasks.DirectorPrompt | supabase/functions/run-workflow/index.ts:274 | the director's message starts with the fixed head and ends with the input; in full it is `You are a director agent. Given the following task, break it down into <n> sub-tasks, one for each worker. Return ONLY a JSON array of strings, each being a sub-task.` then two newlines, `Task: ` and the input, with n the decimal worker count |
| SubTasks.SubTaskList | supabase/functions/run-workflow/index.ts:282-288 | every entry other than the input comes from a span that parses, and then the list is the parsed array; FallbackToInput and ParsedTasksByPosition state what each worker then gets |
| SubTasks.WorkerTask | supabase/functions/run-workflow/index.ts:294 | `subTasks[idx] \|\| input`: a worker is sent an empty task only when the input is empty |
| SubTasks.SpanAfterPlainText | supabase/functions/run-workflow/index.ts:284 | text without `[` followed by a bracketed text yields that bracketed text |
| SubTasks.WorkerTaskOrigin | supabase/functions/run-workflow/index.ts:285-294 | a worker's task is the input or the non-empty entry at its own position in the parsed array |
| SubTasks.FallbackToInput | supabase/functions/run-workflow/index.ts:285-288 | with no span, or a span that does not parse, every worker gets the input |
| SubTasks.ParsedTasksByPosition | supabase/functions/run-workflow/index.ts:294 | a parsed array assigns entry i to worker i; a missing or empty entry falls back to the input |
| SubTasks.TwoArraysFallBack | supabase/functions/run-workflow/index.ts:284-288 | a reply with two arrays separated by text gives every worker the input |
| SubTasks.NoArrayExample | supabase/functions/run-workflow/index.ts:284-294 | the reply `no array here` sends both of two workers the input |
| SubTasks.TwoTasksExample | supabase/functions/run-workflow/index.ts:284-294 | the reply `Sub-tasks: ["task1", "task2"]` sends `task1` to worker 0 and `task2` to worker 1 |
| Dispatch.RunSequential | supabase/functions/run-workflow/index.ts:207-237 | over the sorted, resolved steps, agent k is sent the input (k = 0) or agent k-1's reply; each success records an event; the first failure stops the chain with its message and no later call; the events are the ones inserted; tokens are their sum; the output is the last reply, or the input |
| Dispatch.Launch | supabase/functions/run-workflow/index.ts:240-246 | one call per resolved step, in step order, each with its step's task, and no event yet |
| Dispatch.Collect | supabase/functions/run-workflow/index.ts:249-262 | one event per branch in branch order, inserted as it is recorded; tokens are their sum; the output is the start text plus one `\n\n[name]: content` block per branch |
| Dispatch.FanOut | supabase/functions/run-workflow/index.ts:238-262 | every resolved step is called with its task; the phase fails exactly when some branch fails, then with that branch's message and no events; otherwise one event per branch, in stored order |
| Dispatch.WorkerTasks | supabase/functions/run-workflow/index.ts:291-294 | one sub-task per worker position, each the sub-task the director's reply assigns to it |
| Dispatch.RunDirected | supabase/functions/run-workflow/index.ts:272-308 | the director is call 0 with the decomposition prompt; its failure ends the phase with no event; otherwise its event comes first, then the workers fan out from call 1; the output is the input plus the worker blocks only |
| Dispatch.RunHierarchical | supabase/functions/run-workflow/index.ts:263-309 | the director is the first sorted step; if its agent is not found, the phase fails with `Director agent not found` before any call |
| RunWorkflow.AgentIds | supabase/functions/run-workflow/index.ts:157-158 | the ids are exactly the agent ids the steps name |
| RunWorkflow.WithIds | supabase/functions/run-workflow/index.ts:159-162 | the fetched agents are exactly the rows whose id is named |
| RunWorkflow.Providers | supabase/functions/run-workflow/index.ts:172 | the providers are exactly those of the fetched agents |
| RunWorkflow.LoadKeys | supabase/functions/run-workflow/index.ts:173-184 | the key map holds the stored key of each provider that has one, and nothing else |
| RunWorkflow.FirstMissing | supabase/functions/run-workflow/index.ts:186-199 | the reported provider is the first one without a key, or none |
| RunWorkflow.MissingIsUnstored | supabase/functions/run-workflow/index.ts:173-199 | the provider reported missing is the first one for which the caller stores no key |
| RunWorkflow.EveryAgentKeyed | supabase/functions/run-workflow/index.ts:186-214 | once no provider is missing, every agent's call carries its provider's stored key |
| RunWorkflow.AgentsNeedSteps | supabase/functions/run-workflow/index.ts:157-167 | a workflow without steps never reaches execution, so the director lookup always has a step |
| RunWorkflow.SameInput | supabase/functions/run-workflow/index.ts:244 | every concurrent branch is sent the run's input |
| RunWorkflow.Execute | supabase/functions/run-workflow/index.ts:206-309 | each named topology behaves as its phase describes; any other type makes no call, records nothing and succeeds with the input; tokens always sum the recorded events |
| RunWorkflow.HandleRunRequest | supabase/functions/run-workflow/index.ts:107-199 | each failed check answers 400 with its own message, in the source's order, and writes nothing; otherwise the Run is inserted as `running`, then there is no agent (failed, `No agents found`), a missing key (failed, 400 naming the provider, zero model calls), or completion |
| RunWorkflow.RunInserted | supabase/functions/run-workflow/index.ts:156-199 | after the insert: no agents, the first provider without a stored key, or execution with each provider's stored key |
| RunWorkflow.Complete | supabase/functions/run-workflow/index.ts:201-349 | the trace is the insert, the phase's calls and events, then one final update; that update records every event and their token sum; success answers 200 with the output, failure answers 500 with the message |
| WorkflowEditor.AddStep | src/pages/console/Workflows.tsx:47-50 | without agents nothing changes; otherwise exactly one step is appended, with the first agent and `order` equal to the old length |
| WorkflowEditor.WithoutIsSplice | src/pages/console/Workflows.tsx:53 | the filter removes exactly the step at an in-range index, and nothing otherwise |
| WorkflowEditor.Renumber | src/pages/console/Workflows.tsx:53 | the orders become 0..n-1 and the agents stay in place |
| WorkflowEditor.RemoveStep | src/pages/console/Workflows.tsx:52-54 | the filter then the renumbering; RemoveStepSpec proves the orders become 0..n-1 and only the chosen step goes |
| WorkflowEditor.RemoveStepSpec | src/pages/console/Workflows.tsx:52-54 | after a removal the orders are 0..n-1; an in-range index shortens the list by one and keeps the other agents in order; any other index keeps every agent |
| WorkflowEditor.ChangeAgent | src/pages/console/Workflows.tsx:159-162 | only the chosen step's agent changes; its order and every other step stay |
| WorkflowEditor.CanSave | src/pages/console/Workflows.tsx:174 | the save button's guard; SaveGuardMatchesRun proves that a workflow it lets through, with its steps naming stored agents, never fails with `No agents found` |
| WorkflowEditor.SaveGuardMatchesRun | supabase/functions/run-workflow/index.ts:164-167 | a savable workflow whose steps name stored agents fetches at least one agent; a step list the guard refuses for being empty fetches none, so its run would fail with `No agents found` |
| WorkflowEditor.ApplyKeepsDense | src/pages/console/Workflows.tsx:47-54 | every edit keeps orders 0..n-1 |
| WorkflowEditor.EditorStepsRunInOrder | src/pages/console/Workflows.tsx:32-54 | any series of edits from the empty form gives orders 0..n-1, which the run's sort leaves as they are |
| RunsView.OnRunEvent | src/pages/console/Runs.tsx:69-77 | a `chunk` appends its content (`""` when missing) to its run's text, starting from `""`; other runs are untouched; other event types change nothing |
| RunsView.Replay | src/pages/console/Runs.tsx:69-77 | a series of inserts, one handler call each, never drops a run's text; ReplayIsChunkText proves each run gets exactly its own chunks in arrival order |
| RunsView.ReplayIsChunkText | src/pages/console/Runs.tsx:71-75 | a run's text is keyed by run id only: it is its old text plus that run's chunk contents in arrival order |
| RunsView.StreamOfRun | src/pages/console/Runs.tsx:71-75 | the text streamed for a run is the join of its recorded events' contents |
| RunsView.StartRun | src/pages/console/Runs.tsx:82-88 | nothing is sent without a workflow or with a blank input; otherwise the trimmed input is sent |
| RunsView.StartedRunIsValid | src/pages/console/Runs.tsx:82-88 | with a workflow selected and input that is not all whitespace, a body is sent; it passes the function's required-field check and is already trimmed |
| RunsView.DisplayedOutput | src/pages/console/Runs.tsx:173-177 | the output panel; PanelShowsStreamedRun proves that while the stored output is empty it shows the join of the run's event contents, hidden exactly when that is empty |
| RunsView.PanelShowsStreamedRun | src/pages/console/Runs.tsx:173-177 | with an empty stored output, after all of the run's event inserts, the panel shows the join of the run's event contents, and is hidden exactly when that text is empty |
| OrgState.FindOrg | src/contexts/OrgContext.tsx:62-63 | the first org whose id is the saved one; none when nothing is saved or no org has that id |
| OrgState.RoleOf | src/contexts/OrgContext.tsx:83-84 | the role of the user's first membership, none when the user has no membership |
| OrgState.FirstMembershipWins | src/contexts/OrgContext.tsx:83-84 | a later membership of the same user never decides the role |
| OrgState.OrgContext.constructor | src/contexts/OrgContext.tsx:43-47 | nothing loaded yet, loading, whatever id is saved |
| OrgState.OrgContext.FetchOrgs | src/contexts/OrgContext.tsx:50-72 | an error empties the list; the saved org is restored if fetched; otherwise the first org is selected and saved; an empty list keeps the current org; loading ends; a current org stays persisted |
| OrgState.OrgContext.FetchMembers | src/contexts/OrgContext.tsx:74-85 | the members are the rows returned (none when null), and the role is the user's among them |
| OrgState.OrgContext.SetCurrentOrg | src/contexts/OrgContext.tsx:95-98 | the org becomes current and its id is saved |
| OrgState.OrgContext.CreateOrg | src/contexts/OrgContext.tsx:100-121 | the org is inserted; on success the creator's `owner` membership is inserted; when both succeed the list is refetched and the new org is current and saved; a failure changes nothing |
| OrgState.OrgContext.InviteMember | src/contexts/OrgContext.tsx:123-136 | nothing without a current org; otherwise the notice names the current org's id |
| OrgState.OrgContext.RemoveMember | src/contexts/OrgContext.tsx:138-146 | nothing without a current org; otherwise the membership is deleted and, on success, the members and role are refreshed |
| OrgState.OrgContext.UpdateMemberRole | src/contexts/OrgContext.tsx:148-156 | nothing without a current org; otherwise the role is updated and, on success, the members and role are refreshed |

## Left out

- CORS, `OPTIONS`, the Deno `serve` wrapper, environment variables and `console.error`: plumbing with no effect on the outcome.
- Log inserts: the source ignores whether they succeed, so they do not change any response, Run field or event.
- Timestamps (`completed_at`, `created_at`): clock values.
- The result of each `run_events` insert and each Run update: the source never looks at it. Each insert appears in the trace as an event; each update appears as the update it requests.
- `temperature` is a `real` passed through unchanged. Floating-point behaviour is not modelled.
- `JsonStrings.ParseStringArray` accepts only arrays whose elements are JSON strings. `JSON.parse` would also accept numbers, objects and other values as elements, and would hand them to workers. The model instead treats such a span like one that does not parse.
- `JsonStrings.ParseUnicodeEscape` refuses lone surrogate escapes, which JavaScript strings can hold. Dafny `char`s are Unicode scalar values, not UTF-16 code units.
- `RunWorkflow.RunFields`: `workflow_id` and `input` are strings, and `""` stands for missing. Non-string JSON values in the body are not modelled.
- `Gateway.Payload`: a reply field of the wrong JSON type (a textual token count, say) is not modelled. Counts are integers.
- `Steps.Step`: `order` is an integer. The source's `order` is a JavaScript number compared by `a.order - b.order`; a missing or non-numeric value makes the comparison NaN, and the resulting order is implementation-defined. The workflow editor only ever writes the orders 0..n-1 (`WorkflowEditor.EditorStepsRunInOrder`).
- `Steps.Dedup`: the contract states the same values, each once, not that they keep the order of their first occurrences. `Steps.DedupFirstOutside` states the consequence the key check relies on.
- `Dispatch.PhaseEffects`: the phase contracts fix the order of the model calls and the order of the event inserts, not how the two interleave. The method bodies make a sequential call's event insert follow that call, and make every fan-out call before any of its event inserts.
- `Steps.SortByOrder`: `steps.sort` sorts the workflow's array in place. The mutation is not visible afterwards, because the array is not read again unsorted, so the sort is a pure function.
- `RunModel.CallFor`: an agent whose provider has no key would get the key `""`. This cannot happen, because the key check runs before any call (`RunWorkflow.EveryAgentKeyed`).
- `Dispatch.FanOut`: every branch starts before any reply is awaited. The order in which replies arrive is not modelled. The model records outcomes by position, and reports one failing branch's message when several fail.
- `RunWorkflow.HandleRunRequest`: a failed Run insert answers 400 with the database's message. The trace is then empty; it does not record the failed attempt.
- Query errors on the agents and key tables read as "no rows", as in the source. Any workflow query error reads as "Workflow not found".
- React rendering, toasts, animation, routing and the realtime subscription transport.
- The effects that fetch the orgs on mount and the members when the current org changes. The methods that run are modelled, not the wiring that triggers them.
- The console queries' `created_at` ordering: lists arrive in the order given.
- `OrgState.OrgContext.FetchOrgs`: a `null` list without an error is given as the empty list. The source behaves the same in both cases.
- The workflow form's other fields (name, description, type) and `handleSave`'s insert. Only the step list and the save guard are modelled.
- Files not part of this model: `src/App.tsx`, `src/pages/Index.tsx`, `src/pages/About.tsx`, `src/pages/console/Settings.tsx`, `src/pages/console/Overview.tsx` (static pages); `src/pages/Auth.tsx` (a wrapper over the auth service); `src/pages/console/Agents.tsx`, `src/pages/console/Secrets.tsx`, `src/pages/console/Logs.tsx` (list and form screens); `src/components/ConsoleLayout.tsx` (navigation); `src/integrations/supabase/types.ts` (generated types).
