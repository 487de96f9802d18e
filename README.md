# Principal agent orchestrator and unified protocol client

This project models the orchestration core of the DAWN-style principal agent.
The agent:

- plans a user request into tasks with three keyword rules;
- for each task, looks for a resource in its local pool and otherwise asks every connected gateway agent;
- ranks the candidates by how many task requirements they meet;
- caches what it ranked and invokes the best candidate;
- records per-task status and result with partial-failure semantics;
- keeps a conversation history and an execution history.

It also models the unified protocol client. That client connects its A2A and MCP clients lazily and routes each invocation by resource type.

Modules, one per file:

- `Schemas`: tasks, resources, operation modes, ids. Ids are either given by a gateway or generated (`Uuid(n)`). A `Reply` is a value or a raised exception.
- `Text`: ASCII lower-casing and substring containment.
- `Planner`: the rule table and the plan of a request, with its lemmas.
- `Matching`: `_filter_resources`, a filter followed by a stable sort by descending match count. Proved to be the unique stable ranking. The sort and its lemmas take the sort key as a function; `ByMatchCount(reqs)` is the key `_filter_resources` uses.
- `LocalPool`: the `local_resources` dictionary as keys in insertion order plus a map. Overwriting a key keeps its position.
- `Discovery`: the gateway loop of `request_resources`, as values.
- `Execution`: one iteration of the task loop of `execute_task`, and the whole loop, as values. The loop takes the iteration as a function, and its lemmas hold for any iteration that keeps a task's id, records its result and leaves it not pending (`SoundStep`).
- `Principal`: the class `PrincipalAgent`. Its methods update its fields in place and are proved against the functions above.
- `Protocol`: the class `UnifiedProtocolClient` and the factory `create_protocol_client`.

Things the source takes from the outside world are inputs of the model:

- Generated ids: the agent keeps a counter `nextFresh` that stands for the successive values of `uuid4()`, and every generated id is `Uuid(n)` for a distinct `n`.
- Timestamps: these are method parameters.
- Gateways: a gateway's `search_resources` is a function held by the gateway.
- MCP client: its `list_tools()` reply is a value held by the client.
- A2A protocol object: its `invoke_agent` is a function. Each of these answers with a value or raises.

Some behaviours of the code are worth stating outright, since a reader might expect otherwise:

- Discovery results from the gateways are concatenated without de-duplication by id (main.py:170).
- A task for which discovery finds no suitable resource ends `completed`, not `failed`, with the result `{"error": "No suitable resources found"}` (main.py:243-248).
- Every ranked resource is cached inside `request_resources`, before any invocation, whether or not the invocation later succeeds (main.py:178-180).
- Tasks are run one after the other, in plan order, and a failing task does not stop the later ones (main.py:217-254).
- `res.get("id", str(uuid.uuid4()))` evaluates `uuid4()` for every entry the conversion loop reaches, including entries that carry an id and the first entry without a name, whose `KeyError` ends that gateway's loop; entries after it draw nothing (main.py:163-164).

## Model

| member | source | states |
|---|---|---|
| Planner.EmittedShape | main.py:102-127 | the first `k` tests emit at most `k` tasks, with consecutive fresh ids, all pending, with no result and no assigned resource |
| Planner.PlanShape | main.py:102-136 | every plan has one to three tasks, with consecutive fresh ids, all pending, with no result and no assigned resource |
| Planner.PlanFallback | main.py:129-136 | the plan is the single fallback task (verbatim request, requirements `general`, request under `original_request`) if and only if no keyword occurs |
| Planner.PlanRuleTask | main.py:105-127 | a rule fires if and only if a task with its requirements is planned; that task sits right after the tasks of the earlier rules that fired and carries the rule's description and the whole request under the rule's context key |
| Planner.OnlyFiredTasks | main.py:102-136 | when some keyword fires, the plan holds exactly one task per fired rule and no fallback task: the general task is added only when no rule emitted one |
| Planner.PlanOrder | main.py:105-127 | planned tasks appear in rule-table order: calculate, then search, then analyze |
| Planner.NoAnalyzeWithoutY | main.py:121 | a request with no `y` in either case never fires the analyze rule |
| Planner.NoCalculateOrSearchWithoutC | main.py:105-113 | a request with no `c` in either case fires neither the calculate rule nor the search rule |
| Planner.CalculateFiresAtStart | main.py:105 | "calculate 2+2 and search for cats" contains "calculate" once lower-cased |
| Planner.SearchFiresInside | main.py:113 | "calculate 2+2 and search for cats" contains "search" once lower-cased |
| Planner.NoAnalyzeInCalculateAndSearch | main.py:121 | "calculate 2+2 and search for cats" does not fire the analyze rule |
| Planner.TwoRulePlan | main.py:105-127 | a request on which the calculate and search rules fire and the analyze rule does not plans exactly an arithmetic task and then a search task |
| Planner.CalculateAndSearchScenario | main.py:105-127 | "calculate 2+2 and search for cats" plans an arithmetic task and then a search task, and nothing else |
| Planner.UpperCaseScenario | Aegis/core/principal_agent/principalAgent.py:67-73 | matching ignores case: "CALCULATE" plans the arithmetic task first |
| Planner.NoKeywordScenario | Aegis/core/principal_agent/principalAgent.py:91-98 | "hello there" plans exactly the fallback task |
| Text.ContainsAt | main.py:105 | a keyword found at some position is `in` the string |
| Text.MissingCharNotContained | main.py:105 | a keyword with a character the string lacks is not `in` the string |
| Text.LowerOmits | main.py:105 | lower-casing cannot introduce a letter whose two cases are both absent |
| Matching.MatchesIffCounted | main.py:190-194 | a resource passes the filter if and only if its match count is positive |
| Matching.Insert | main.py:194 | inserting adds exactly that element and loses none |
| Matching.InsertNonIncreasing | main.py:194 | inserting into a sequence sorted by non-increasing count keeps it sorted |
| Matching.InsertByCount | main.py:194 | among the elements of its own count, the inserted element comes first, before those already in the sequence, which keep their order (what the stable insertion sort needs) |
| Matching.SortByCount | main.py:194 | the sort is a permutation whose match counts are non-increasing |
| Matching.SortByCountStable | main.py:194 | for every count, the sort keeps the elements of that count in their input order |
| Matching.SuitableByCount | main.py:186-191 | for every count, the filter drops the elements of count zero and keeps those of any other count, in their input order |
| Matching.SuitableInOrder | main.py:186-191 | the filter keeps exactly the candidates meeting some requirement, in input order across all counts: it equals the in-order subsequence of elements with a positive match count |
| Matching.RankSpec | main.py:184-196 | the ranking holds exactly the inputs meeting some requirement, ordered by non-increasing count, with ties in input order |
| Matching.StablyRankedUnique | main.py:194 | two sequences sorted by non-increasing count that list each count's elements in the same order are equal |
| Matching.RankIsTheStableRanking | main.py:184-196 | any sequence with the promised order and contents is the ranking: `_filter_resources` is the stable descending sort of the filtered inputs |
| Matching.FilterResources | main.py:184-196 | the filtering loop and the sort compute the ranking: non-increasing counts, stable ties, and membership if and only if some requirement is met |
| LocalPool.Put | main.py:180 | storing under a resource's id keeps the pool well formed, with each key listed once |
| LocalPool.PutAll | main.py:179-180 | caching a sequence keeps the pool well formed |
| LocalPool.HitFromSpec | main.py:274-277 | scanning from position `i` finds nothing if and only if no later entry matches; otherwise it finds the first later entry that matches |
| LocalPool.LocalHitSpec | main.py:272-277 | the local lookup is empty if and only if no pooled resource matches; otherwise it is the first match in insertion order |
| LocalPool.PutAllKeepsOrder | main.py:179-180 | caching never moves keys already pooled: the old order is a prefix of the new one |
| LocalPool.PutAllOrder | main.py:179-180 | caching appends the ids not pooled before in order of their first appearance among the ranked resources; a repeated id keeps its first position (dictionary insertion order), whatever value it ends with |
| LocalPool.PutAllDomain | main.py:179-180 | after caching, the pool holds exactly the old ids and the ids of the cached resources |
| LocalPool.PutAllKeepsKeys | main.py:179-180 | caching never removes an id already pooled |
| LocalPool.PutAllNewKeys | main.py:179-180 | an id not pooled before is pooled afterwards if and only if some cached resource carries it |
| LocalPool.PutAllUntouched | main.py:179-180 | ids not cached again keep their old entry |
| LocalPool.PutAllLastWins | main.py:179-180 | an id cached several times holds the last resource stored under it |
| LocalPool.PutThenLookup | main.py:180 | a matching resource stored into a pool with no other match is the one the lookup returns, unchanged |
| Discovery.Convert | main.py:161-170 | converting never moves the fresh counter backwards |
| Discovery.ConvertSpec | main.py:161-170 | entries are converted in order until the first entry without a name; each converted entry keeps its id or takes the fresh value drawn for it, and every entry tried draws one fresh value |
| Discovery.ConvertStopped | main.py:161-173 | once an entry has raised, the entries after it are never converted |
| Discovery.Discover | main.py:151-173 | asking the gateways never moves the fresh counter backwards |
| Discovery.DiscoverAppend | main.py:151-173 | asking two lists of gateways in turn concatenates their results, with no merging or de-duplication |
| Discovery.RaisingGatewaySkipped | main.py:152-173 | a gateway whose call raises contributes nothing, and the gateways after it are still asked |
| Discovery.DiscoveredFromGateways | main.py:162-168 | every discovered resource is tagged with the id of a gateway that was asked |
| Execution.ExecuteWithResource | main.py:279-292 | `_execute_with_resource`'s dictionary: the task's id, the resource's name as `resource_used`, status "success"; where it is used is stated by `LocalHitSkipsDiscovery` and `DiscoveryPath` |
| Execution.RunTask | main.py:217-254 | a task keeps its id, description, requirements and context; it ends completed, or failed with an error result; its result is recorded; a well-formed pool stays well formed and the fresh counter never moves backwards |
| Execution.StepWithSound | main.py:217-254 | the iteration of the task loop is sound: it keeps a task's id, records its result, leaves it not pending and keeps the pool well formed |
| Execution.RunAll | main.py:214-254 | one outcome and one result per task |
| Execution.RunAllShape | main.py:214-254 | with a sound iteration, each outcome keeps its task's id and is not pending, the results list each outcome's result in task order, and a well-formed pool stays well formed |
| Execution.RunAllPrefix | main.py:217-254 | running the first `m` tasks gives the first `m` outcomes of running all of them |
| Execution.EveryTaskRuns | main.py:217-254 | every task runs from the pool and counter that the earlier tasks left, whether those tasks succeeded or failed |
| Execution.LocalHitSkipsDiscovery | main.py:220-224 | on a local hit, the outcome does not depend on gateways or protocol clients; the pool and counter are unchanged; no resource is assigned; the task completes with the `_execute_with_resource` result |
| Execution.DiscoveryPath | main.py:226-248 | without a local hit, all ranked candidates are cached and the first is assigned; an empty ranking completes the task with "No suitable resources found"; with a candidate and no A2A client, the task completes with the `_execute_with_resource` result for that candidate; with an A2A client that answers, the task completes with its reply |
| Execution.FailsOnlyWhenInvocationRaises | main.py:234-254 | a task fails if and only if discovery chose a resource and the A2A invocation raised; the result is then that exception's message |
| Principal.ExecuteShape | main.py:212-267 | executing a request yields one to three task outcomes, one per planned task, in plan order, with the planned ids, none pending, and their results listed in the same order |
| Principal.PrincipalAgent.constructor | main.py:49-86 | a new agent has empty gateways, pool, queue, histories and context lists, the three strategies, strategy `react`, and a generated id; the copy at Aegis/core/principal_agent/principalAgent.py:15-47 sets up the same state without protocol clients |
| Principal.PrincipalAgent.ConnectGateway | main.py:88-91 | the gateway is appended to the end of the connected gateways (as in the copy at Aegis/core/principal_agent/principalAgent.py:52-55) |
| Principal.PrincipalAgent.TestRule | main.py:105-127 | one keyword test of `plan_task`: the task list and fresh counter become those after testing that rule |
| Principal.PrincipalAgent.PlanTask | main.py:93-139 | the returned tasks are the plan of the request; exactly those are appended to the task queue; all ids stay distinct (the identical copy is Aegis/core/principal_agent/principalAgent.py:57-101) |
| Principal.PrincipalAgent.FindLocalResource | main.py:272-277 | the scan returns the first pooled resource in insertion order that meets a requirement, and None if and only if no pooled resource does |
| Principal.PrincipalAgent.QueryGateway | main.py:152-173 | one gateway's `try` block: ask the MCP client if there is one, otherwise the gateway, then convert the reply's entries |
| Principal.PrincipalAgent.CacheResources | main.py:178-180 | each resource is stored under its id, in order |
| Principal.PrincipalAgent.RequestResources | main.py:141-182 | the result is the ranking of what all gateways returned, in gateway order; exactly those resources are cached |
| Principal.PrincipalAgent.RunOne | main.py:218-254 | one iteration of the task loop does what `Execution.RunTask` says |
| Principal.PrincipalAgent.RunTasks | main.py:214-254 | the task loop does what `Execution.RunAll` says |
| Principal.PrincipalAgent.ExecuteTask | main.py:198-270 | one conversation entry and one execution record are appended; the tasks are planned and run; the queued tasks take their final state; the summary reports one result per planned task and the mode |
| Principal.PrincipalAgent.SetOperationMode | main.py:313-316 | the mode becomes the given one |
| Principal.PrincipalAgent.GetExecutionHistory | main.py:318-320 | returns the execution history |
| Principal.PrincipalAgent.GetContext | main.py:322-324 | returns the context |
| Protocol.AgentRoute | Aegis/core/protocol/protocol_clients.py:85-91 | "agent" goes to the A2A client only; the description is the given one, or "Execute task" when it is missing or empty; the context is the given params or `{}` |
| Protocol.ToolRoute | Aegis/core/protocol/protocol_clients.py:92-97 | "tool" goes to the MCP client only, with the endpoint and params unchanged and no tool name |
| Protocol.UnknownRoute | Aegis/core/protocol/protocol_clients.py:98-100 | exactly the other types reach neither client and get `{"error": "Unknown resource type: <type>"}` |
| Protocol.ConnectSpec | Aegis/core/protocol/protocol_clients.py:54-63 | connecting succeeds if and only if both clients report success; without an exception it returns the flag it sets; an exception returns false and leaves the flag unchanged; MCP is asked only when A2A answered |
| Protocol.StaysConnected | Aegis/core/protocol/protocol_clients.py:82-83 | once connected, the client stays connected through later invocations; while not connected, an invocation connects if and only if both clients report success |
| Protocol.UnifiedProtocolClient.constructor | Aegis/core/protocol/protocol_clients.py:49-52 | a new client is not connected and has made no calls |
| Protocol.UnifiedProtocolClient.Connect | Aegis/core/protocol/protocol_clients.py:54-63 | the returned value and the new flag are those `ConnectSpec` describes |
| Protocol.UnifiedProtocolClient.Invoke | Aegis/core/protocol/protocol_clients.py:65-100 | connects first if and only if not connected; routes and answers as `Dispatch` says, whatever the connection attempt gave; passes on exactly the routed call, or none |
| Protocol.UnifiedProtocolClient.Send | Aegis/core/protocol/protocol_clients.py:85-100 | the routing half of `invoke`: answers as `Dispatch` says and passes on exactly the routed call, or none |
| Protocol.CreateProtocolClient | Aegis/core/protocol/protocol_clients.py:102-119 | a client is built if and only if the name is "a2a", "mcp" or "unified", and the kind built carries that name; the rest is stated by `CreateRoundTrip` and `CreateRejects` |
| Protocol.CreateRoundTrip | Aegis/core/protocol/protocol_clients.py:112-117 | each client kind is built from its own name and from no other string |
| Protocol.CreateRejects | Aegis/core/protocol/protocol_clients.py:102-119 | every string other than "a2a", "mcp" and "unified" raises "Unknown protocol type: <string>"; the default builds the unified client |

## Left out

- async/await, `asyncio.sleep` and the network are left out. Every call into a gateway or protocol client is an input to the model.
- `uuid4()` and `datetime.now()` are a counter and parameters. Python's ids are random strings, assumed here never to collide with each other.
- Logging is left out everywhere.
- Lower-casing covers ASCII only. Python's `str.lower()` also lowers other Unicode letters.
- The reasoning strategies (`_reasoning_react`, `_reasoning_rewoo`, `_reasoning_tree_of_thoughts`) have empty bodies. Only their names and `current_strategy` are modelled.
- The gateway agent class (Aegis/core/gateway_agent/gatewayAgent.py) has empty methods. A gateway is modelled only by the answers its `search_resources` gives.
- The performance metrics of resources are never computed, so they are not modelled.
- The stubs and duplicated stub methods of Aegis/core/principal_agent/principalAgent.py:103-144 are left out.
- The default `mode = OperationalMode` of that file's constructor (line 15) is the enum class, not a member, so its log line `mode.value` fails. The model's constructor takes a mode, so this failure is not modelled.
- The A2A and MCP client classes have empty bodies and define no `connect()`. The answers of their `connect()` are parameters of `Connect` and `Invoke`, and `invoke_agent`/`invoke_tool` are functions of the client values.
- Execution.RunTask: the only exception modelled is one raised by the A2A invocation. `_find_local_resource`, `request_resources` and `_execute_with_resource` cannot raise in the modelled cases, because discovery catches gateway exceptions itself.
- Discovery.Convert: an entry's `capabilities` is taken to be a list of strings. A non-list value is not modelled.
- Principal.PrincipalAgent.ExecuteTask: in the source, tasks are mutable objects shared between `task_queue`, the loop and the execution record. The model holds tasks as values and writes the final tasks over the planned ones at the end of the queue. This is the same final state, but the aliasing itself is not modelled.
- Principal.PrincipalAgent.QueryGateway, CacheResources, RunOne, RunTasks and TestRule are not separate functions in the source. They are the bodies of the loops of `request_resources` and `execute_task`, and one keyword test of `plan_task`, split out so that each can be proved on its own. Likewise Protocol.UnifiedProtocolClient.Send is the second half of `invoke`.
- Discovery.Convert: its own contract states only that the fresh counter does not move backwards. What it converts is stated by `ConvertSpec`.
- Execution.RunAll: its own contract states only the lengths. What each outcome is is stated by `RunAllShape`, `RunAllPrefix` and `EveryTaskRuns`.
- Matching.Insert: its own contract states only what it adds. That it keeps the order is stated by `InsertNonIncreasing`.
- Principal.PrincipalAgent.ExecuteTask: the execution record stores the tasks' final values rather than their `__dict__`.
- Discovery.Discover: its own contract states only that the fresh counter does not move backwards. Its results are characterised by `DiscoverAppend`, `RaisingGatewaySkipped` and `DiscoveredFromGateways`.
- Principal.PrincipalAgent.constructor: the default arguments of `__init__` (main.py:49-53: `name="principal-agent"`, `mode=OperationMode.AGENT`, no MCP client and no A2A protocol object) are not modelled; every argument must be passed.
- A gateway's `search_resources`, the A2A client's `invoke_agent` (`AgentInvoker`) and the MCP client's `invoke_tool` (`McpClient`) are pure functions, and `list_tools()` is one fixed reply, so identical arguments always get the identical reply or exception: the model cannot represent a gateway or client whose answers change from one call to the next, although `list_tools()` is called again for every gateway of every request (main.py:155). No stated property depends on this restriction.
- `get_execution_history` and `get_context` return the agent's live list and dictionary, so a caller's later changes reach the agent (main.py:318-320, 322-324); the model returns values, so it does not capture that aliasing.
- The protocol factory returns a client kind rather than a new client object. `UnifiedProtocolClient`'s constructor builds the object itself.
