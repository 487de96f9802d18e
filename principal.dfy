/** The principal agent: the object that holds the connected gateways, the
    local resource pool, the task queue, the execution history and the
    conversation context, and whose methods plan a request, discover resources
    and execute the plan. Each method is proved against the value-level
    definitions of the planner, the discovery loop, the ranking and the task
    loop. */
module Principal {
  import opened Schemas
  import opened Text
  import opened Planner
  import opened Matching
  import opened LocalPool
  import opened Discovery
  import opened Execution

  /** One entry of `context["conversation_history"]`. */
  datatype Exchange = Exchange(timestamp: string, request: string)

  /** The agent's `context` dictionary. Only the conversation history is ever
      written; the other three parts keep their initial empty values. */
  datatype Context = Context(
    conversationHistory: seq<Exchange>,
    userPreferences: Dict,
    taskHistory: seq<Dict>,
    memoryBank: Dict)

  /** One entry of `execution_history`. */
  datatype ExecutionRecord = ExecutionRecord(timestamp: string, request: string, tasks: seq<Task>, results: seq<TaskResult>)

  /** The dictionary `execute_task` returns. */
  datatype Summary = Summary(request: string, tasksExecuted: nat, results: seq<TaskResult>, mode: string)

  /** The tasks of `q` carry distinct generated ids below `bound`, none equal to `own`. */
  ghost predicate DistinctFresh(q: seq<Task>, own: Id, bound: nat) {
    && (forall i :: 0 <= i < |q| ==> q[i].id.Uuid? && q[i].id.n < bound && q[i].id != own)
    && (forall i, j :: 0 <= i < j < |q| ==> q[i].id != q[j].id)
  }

  /** Appending tasks numbered by the next fresh values keeps the ids distinct. */
  lemma AppendFresh(q: seq<Task>, own: Id, bound: nat, tasks: seq<Task>)
    requires DistinctFresh(q, own, bound) && own.Uuid? && own.n < bound
    requires forall i :: 0 <= i < |tasks| ==> tasks[i].id == Uuid(bound + i)
    ensures DistinctFresh(q + tasks, own, bound + |tasks|)
  {
    var r := q + tasks;
    forall i, j | 0 <= i < j < |r| ensures r[i].id != r[j].id {
      if j >= |q| {
        assert r[j].id == Uuid(bound + j - |q|);
      }
    }
  }

  /** Replacing the tasks by tasks with the same ids, and raising the bound,
      keeps the ids distinct. */
  lemma SameIds(q: seq<Task>, q': seq<Task>, own: Id, bound: nat, bound': nat)
    requires DistinctFresh(q, own, bound) && bound <= bound'
    requires |q'| == |q| && forall i :: 0 <= i < |q| ==> q'[i].id == q[i].id
    ensures DistinctFresh(q', own, bound')
  {
  }

  /** Writing back run tasks over the planned ones keeps the ids distinct. */
  lemma ReplaceTail(q: seq<Task>, tasks: seq<Task>, done: seq<Task>, own: Id, bound: nat)
    requires DistinctFresh(q + tasks, own, bound)
    requires |done| == |tasks| && forall i :: 0 <= i < |tasks| ==> done[i].id == tasks[i].id
    ensures DistinctFresh(q + done, own, bound)
  {
    SameIds(q + tasks, q + done, own, bound, bound);
  }

  /** What `execute_task` does with `request`: the plan, numbered from `first`,
      run task by task from the pool and the counter as planning left them. */
  function Execute(cfg: Config, pool: Pool, first: nat, request: string): Run {
    RunAll(StepWith(cfg), pool, AfterPlan(request, first), Plan(request, first))
  }

  /** One outcome per planned task, in plan order: between one and three tasks,
      each keeping its id and ending completed or failed with its result
      recorded, and the results listed in the same order. */
  lemma ExecuteShape(cfg: Config, pool: Pool, first: nat, request: string)
    ensures var planned := Plan(request, first);
      var run := Execute(cfg, pool, first, request);
      && 1 <= |run.done| <= 3 && |run.done| == |planned| && |run.results| == |planned|
      && forall i :: 0 <= i < |planned| ==>
           run.done[i].id == Uuid(first + i) && run.done[i].id == planned[i].id
           && run.done[i].status != Pending && run.done[i].result == Some(run.results[i])
  {
    PlanShape(request, first);
    StepWithSound(cfg);
    RunAllShape(StepWith(cfg), pool, AfterPlan(request, first), Plan(request, first));
  }

  const ReasoningStrategies: seq<string> := ["react", "rewoo", "tot"]

  class PrincipalAgent {
    const name: string
    const id: Id
    var mode: OperationMode
    const mcpClient: Option<ToolLister>
    const a2aProtocol: Option<AgentInvoker>
    var gatewayAgents: seq<Gateway>
    var localResources: Pool
    var taskQueue: seq<Task>
    var executionHistory: seq<ExecutionRecord>
    var context: Context
    const reasoningStrategies: seq<string>
    var currentStrategy: string
    /** The next value `uuid4()` will produce, as a counter: every id the agent
        generates is a distinct `Uuid(n)` with `n` below it. */
    var nextFresh: nat

    /** The pool is well formed, and the agent's own id and the ids of all
        queued tasks are distinct generated values. */
    ghost predicate Valid()
      reads this
    {
      && localResources.Valid()
      && id.Uuid? && id.n < nextFresh
      && DistinctFresh(taskQueue, id, nextFresh)
    }

    /** `__init__`; `firstFresh` stands for the `uuid4()` that names the agent. */
    constructor (name: string, mode: OperationMode, mcpClient: Option<ToolLister>,
                 a2aProtocol: Option<AgentInvoker>, firstFresh: nat)
      ensures Valid()
      ensures this.name == name && this.mode == mode && id == Uuid(firstFresh)
      ensures this.mcpClient == mcpClient && this.a2aProtocol == a2aProtocol
      ensures gatewayAgents == [] && localResources == Empty && taskQueue == []
      ensures executionHistory == [] && context == Context([], map[], [], map[])
      ensures reasoningStrategies == ReasoningStrategies && currentStrategy == "react"
      ensures nextFresh == firstFresh + 1
    {
      this.name := name;
      this.id := Uuid(firstFresh);
      this.mode := mode;
      this.mcpClient := mcpClient;
      this.a2aProtocol := a2aProtocol;
      gatewayAgents := [];
      localResources := Empty;
      taskQueue := [];
      executionHistory := [];
      context := Context([], map[], [], map[]);
      reasoningStrategies := ReasoningStrategies;
      currentStrategy := "react";
      nextFresh := firstFresh + 1;
    }

    method ConnectGateway(gateway: Gateway)
      requires Valid()
      modifies this`gatewayAgents
      ensures Valid()
      ensures gatewayAgents == old(gatewayAgents) + [gateway]
    {
      gatewayAgents := gatewayAgents + [gateway];
    }

    /** One keyword test of `plan_task`: when `keyword` occurs in the
        lower-cased request, append the rule's task, numbered by the next fresh
        value. The rule is rule `k` of the table. */
    method TestRule(userRequest: string, ghost first: nat, k: nat, tasks: seq<Task>,
                    keyword: string, description: string, requirements: seq<string>, contextKey: string)
      returns (extended: seq<Task>)
      requires k < |Rules| && Rules[k] == Rule(keyword, description, requirements, contextKey)
      requires tasks == Emitted(userRequest, first, k) && nextFresh == first + |tasks|
      modifies this`nextFresh
      ensures extended == Emitted(userRequest, first, k + 1) && nextFresh == first + |extended|
    {
      extended := tasks;
      if Contains(Lower(userRequest), keyword) {
        extended := extended + [Task(Uuid(nextFresh), description, requirements,
                                     map[contextKey := userRequest], Pending, None, None)];
        nextFresh := nextFresh + 1;
      }
    }

    /** `plan_task`: the plan for the request, appended to the task queue. */
    method PlanTask(userRequest: string) returns (tasks: seq<Task>)
      requires Valid()
      modifies this`taskQueue, this`nextFresh
      ensures Valid()
      ensures tasks == Plan(userRequest, old(nextFresh))
      ensures taskQueue == old(taskQueue) + tasks
      ensures nextFresh == AfterPlan(userRequest, old(nextFresh))
    {
      ghost var first := nextFresh;
      tasks := [];
      tasks := TestRule(userRequest, first, 0, tasks, "calculate", "Perform arithmetic calculation",
                        ["arithmetic", "math"], "input");
      tasks := TestRule(userRequest, first, 1, tasks, "search", "Search for information",
                        ["search", "information_retrieval"], "query");
      tasks := TestRule(userRequest, first, 2, tasks, "analyze", "Analyze data",
                        ["data_analysis", "statistics"], "data");
      if tasks == [] {
        tasks := tasks + [Task(Uuid(nextFresh), userRequest, ["general"],
                               map["original_request" := userRequest], Pending, None, None)];
        nextFresh := nextFresh + 1;
      }
      assert tasks == Plan(userRequest, first) && nextFresh == first + |tasks|;
      assert DistinctFresh(taskQueue + tasks, id, nextFresh) by {
        PlanShape(userRequest, first);
        AppendFresh(taskQueue, id, first, tasks);
      }
      taskQueue := taskQueue + tasks;
    }

    /** `_find_local_resource`: scan the pool in insertion order. */
    method FindLocalResource(requirements: seq<string>) returns (found: Option<Resource>)
      requires Valid()
      ensures found == LocalHit(localResources, requirements)
      ensures found.None? <==>
        forall rid :: rid in localResources.entries ==> !Matches(localResources.entries[rid], requirements)
      ensures found.Some? ==>
        found.value in localResources.entries.Values && Matches(found.value, requirements)
    {
      LocalHitSpec(localResources, requirements);
      var i := 0;
      while i < |localResources.order|
        invariant 0 <= i <= |localResources.order|
        invariant HitFrom(localResources, requirements, i) == LocalHit(localResources, requirements)
      {
        var resource := localResources.entries[localResources.order[i]];
        if Matches(resource, requirements) {
          return Some(resource);
        }
        i := i + 1;
      }
      return None;
    }

    /** The `try` block of `request_resources` for one gateway: ask it, then
        convert the reply's entries in order until one has no name. */
    method QueryGateway(gateway: Gateway, requirements: seq<string>) returns (converted: seq<Resource>)
      modifies this`nextFresh
      ensures var b := Query(gateway, mcpClient, requirements, old(nextFresh));
        converted == b.resources && nextFresh == b.nextFresh
    {
      converted := [];
      var reply := if mcpClient.Some? then mcpClient.value.listTools else gateway.search(requirements);
      match reply {
        case Raised(_) =>
        case Returned(resources) =>
          var j := 0;
          var raised := false;
          while j < |resources| && !raised
            invariant 0 <= j <= |resources|
            invariant var b := Convert(gateway.id, resources[..j], old(nextFresh));
              converted == b.resources && nextFresh == b.nextFresh && raised == b.raised
          {
            var res := resources[j];
            assert resources[..j + 1][..j] == resources[..j];
            var rid := if res.id.Some? then Given(res.id.value) else Uuid(nextFresh);
            nextFresh := nextFresh + 1;
            if res.name.None? {
              raised := true;
            } else {
              converted := converted + [Resource(rid, res.name.value, res.capabilities.GetOr([]),
                                                 res.endpoint.GetOr(""), res, gateway.id)];
            }
            j := j + 1;
          }
          if raised {
            ConvertStopped(gateway.id, resources, j, old(nextFresh));
          } else {
            assert resources[..j] == resources;
          }
      }
    }

    /** The caching loop of `request_resources`: store each resource under its id. */
    method CacheResources(resources: seq<Resource>)
      requires localResources.Valid()
      modifies this`localResources
      ensures localResources == PutAll(old(localResources), resources)
    {
      var k := 0;
      while k < |resources|
        invariant 0 <= k <= |resources|
        invariant localResources.Valid()
        invariant localResources == PutAll(old(localResources), resources[..k])
      {
        assert resources[..k + 1][..k] == resources[..k];
        localResources := Put(localResources, resources[k]);
        k := k + 1;
      }
      assert resources[..k] == resources;
    }

    /** `request_resources`: ask every gateway in order, rank what was found and
        cache every ranked resource under its id. A gateway that raises is
        skipped and the others are still asked. */
    method RequestResources(task: Task) returns (suitable: seq<Resource>)
      requires Valid()
      modifies this`localResources, this`nextFresh
      ensures Valid()
      ensures var found := Discover(gatewayAgents, mcpClient, task.requirements, old(nextFresh));
        && suitable == Rank(found.resources, task.requirements)
        && nextFresh == found.nextFresh
        && localResources == PutAll(old(localResources), suitable)
    {
      ghost var start := nextFresh;
      var gateways := gatewayAgents;
      var allResources: seq<Resource> := [];
      var g := 0;
      while g < |gateways|
        modifies this`nextFresh
        invariant 0 <= g <= |gateways|
        invariant Discover(gateways[..g], mcpClient, task.requirements, start) == Found(allResources, nextFresh)
      {
        assert gateways[..g + 1][..g] == gateways[..g];
        var converted := QueryGateway(gateways[g], task.requirements);
        allResources := allResources + converted;
        g := g + 1;
      }
      assert gateways[..g] == gateways;
      suitable := FilterResources(allResources, task.requirements);
      CacheResources(suitable);
      SameIds(taskQueue, taskQueue, id, start, nextFresh);
    }

    /** One iteration of the task loop of `execute_task` (the body of its `try`
        and the `except` that fails the task). */
    method RunOne(t: Task) returns (task: Task, result: TaskResult)
      requires Valid()
      modifies this`localResources, this`nextFresh
      ensures Valid()
      ensures RunTask(Config(gatewayAgents, mcpClient, a2aProtocol), old(localResources), old(nextFresh), t)
           == Step(task, result, localResources, nextFresh)
    {
      task := t;
      var localResource := FindLocalResource(task.requirements);
      if localResource.Some? {
        result := ExecuteWithResource(task, localResource.value);
        task := task.(result := Some(result), status := Completed);
      } else {
        var resources := RequestResources(task);
        if resources != [] {
          var selected := resources[0];
          task := task.(assignedResource := Some(selected.id));
          match a2aProtocol {
            case Some(a2a) =>
              match a2a.invokeAgent(selected.endpoint, task.description, task.context) {
                case Returned(reply) =>
                  result := AgentReply(reply);
                  task := task.(result := Some(result), status := Completed);
                case Raised(message) =>
                  result := Error(message);
                  task := task.(status := Failed, result := Some(result));
              }
            case None =>
              result := ExecuteWithResource(task, selected);
              task := task.(result := Some(result), status := Completed);
          }
        } else {
          result := Error(NoSuitableResources);
          task := task.(result := Some(result), status := Completed);
        }
      }
    }

    /** The task loop of `execute_task`: every task is run in order, whatever
        became of the ones before it. */
    method RunTasks(tasks: seq<Task>, ghost step: Stepper, ghost pool: Pool, ghost start: nat)
      returns (done: seq<Task>, results: seq<TaskResult>)
      requires Valid()
      requires step == StepWith(Config(gatewayAgents, mcpClient, a2aProtocol))
      requires pool == localResources && start == nextFresh
      modifies this`localResources, this`nextFresh
      ensures Valid()
      ensures RunAll(step, pool, start, tasks) == Run(done, results, localResources, nextFresh)
    {
      results := [];
      done := [];
      for k := 0 to |tasks|
        invariant Valid()
        invariant RunAll(step, pool, start, tasks[..k]) == Run(done, results, localResources, nextFresh)
      {
        assert tasks[..k + 1][..k] == tasks[..k];
        assert step(localResources, nextFresh, tasks[k])
            == RunTask(Config(gatewayAgents, mcpClient, a2aProtocol), localResources, nextFresh, tasks[k]);
        var task, result := RunOne(tasks[k]);
        results := results + [result];
        done := done + [task];
      }
      assert tasks[..|tasks|] == tasks;
    }

    /** `execute_task`: record the request, plan it, and run every planned task
        (local pool first, else discovery and the first ranked resource, invoked
        through A2A when the agent has a client); a task whose invocation raises
        fails on its own and the loop goes on. The tasks end up updated in place
        in the queue, and one execution record is stored. `startedAt` and
        `finishedAt` are the two `datetime.now()` readings. */
    method ExecuteTask(userRequest: string, startedAt: string, finishedAt: string) returns (summary: Summary)
      requires Valid()
      modifies this`context, this`taskQueue, this`nextFresh, this`localResources, this`executionHistory
      ensures Valid()
      ensures var run := Execute(Config(old(gatewayAgents), mcpClient, a2aProtocol), old(localResources), old(nextFresh), userRequest);
        && taskQueue == old(taskQueue) + run.done
        && localResources == run.pool && nextFresh == run.nextFresh
        && context == old(context).(conversationHistory := old(context.conversationHistory) + [Exchange(startedAt, userRequest)])
        && executionHistory == old(executionHistory) + [ExecutionRecord(finishedAt, userRequest, run.done, run.results)]
        && summary == Summary(userRequest, |run.done|, run.results, mode.Value())
      ensures 1 <= summary.tasksExecuted <= 3 && |summary.results| == summary.tasksExecuted
    {
      context := context.(conversationHistory := context.conversationHistory + [Exchange(startedAt, userRequest)]);
      var tasks := PlanTask(userRequest);
      PlanShape(userRequest, old(nextFresh));
      ghost var step := StepWith(Config(old(gatewayAgents), mcpClient, a2aProtocol));
      ghost var planned := nextFresh;
      var done, results := RunTasks(tasks, step, old(localResources), nextFresh);
      assert DistinctFresh(old(taskQueue) + done, id, nextFresh) by {
        StepWithSound(Config(old(gatewayAgents), mcpClient, a2aProtocol));
        RunAllShape(step, old(localResources), planned, tasks);
        ReplaceTail(old(taskQueue), tasks, done, id, nextFresh);
      }
      taskQueue := taskQueue[..|taskQueue| - |tasks|] + done;
      executionHistory := executionHistory + [ExecutionRecord(finishedAt, userRequest, done, results)];
      summary := Summary(userRequest, |tasks|, results, mode.Value());
    }

    method SetOperationMode(mode: OperationMode)
      modifies this`mode
      ensures this.mode == mode
    {
      this.mode := mode;
    }

    method GetExecutionHistory() returns (history: seq<ExecutionRecord>)
      ensures history == executionHistory
    {
      return executionHistory;
    }

    method GetContext() returns (c: Context)
      ensures c == context
    {
      return context;
    }
  }
}
