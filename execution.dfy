/** The per-task control flow of `execute_task`, as values: local lookup, else
    discovery and ranking (caching what was ranked), pick the first resource,
    invoke it, and record status and result. An exception raised by the
    invocation fails that task only. */
module Execution {
  import opened Schemas
  import opened Matching
  import opened LocalPool
  import opened Discovery

  /** What the agent consults while executing and never changes then. */
  datatype Config = Config(gateways: seq<Gateway>, mcp: Option<ToolLister>, a2a: Option<AgentInvoker>)

  const NoSuitableResources: string := "No suitable resources found"

  /** The dictionary `_execute_with_resource` returns (after its simulated delay). */
  function ExecuteWithResource(task: Task, resource: Resource): (r: TaskResult)
    ensures r.Simulated? && r.taskId == task.id && r.resourceUsed == resource.name && r.status == "success"
  {
    Simulated(task.id, resource.name, "success",
              "Executed '" + task.description + "' using " + resource.name)
  }

  /** One iteration of the task loop: the task as it ends, the entry appended
      to `results`, and the pool and fresh counter afterwards. */
  datatype Step = Step(task: Task, result: TaskResult, pool: Pool, nextFresh: nat)

  function RunTask(cfg: Config, pool: Pool, nextFresh: nat, t: Task): (s: Step)
    ensures pool.Valid() ==> s.pool.Valid()
    ensures s.nextFresh >= nextFresh
    ensures s.task.id == t.id && s.task.description == t.description
      && s.task.requirements == t.requirements && s.task.context == t.context
    ensures s.task.result == Some(s.result)
    ensures s.task.status == Completed || (s.task.status == Failed && s.result.Error?)
  {
    match LocalHit(pool, t.requirements)
    case Some(local) =>
      var res := ExecuteWithResource(t, local);
      Step(t.(status := Completed, result := Some(res)), res, pool, nextFresh)
    case None =>
      var found := Discover(cfg.gateways, cfg.mcp, t.requirements, nextFresh);
      var ranked := Rank(found.resources, t.requirements);
      var cached := PutAll(pool, ranked);
      if ranked == [] then
        var res := Error(NoSuitableResources);
        Step(t.(status := Completed, result := Some(res)), res, cached, found.nextFresh)
      else
        var chosen := ranked[0];
        var withResource := t.(assignedResource := Some(chosen.id));
        match cfg.a2a
        case None =>
          var res := ExecuteWithResource(withResource, chosen);
          Step(withResource.(status := Completed, result := Some(res)), res, cached, found.nextFresh)
        case Some(a2a) =>
          match a2a.invokeAgent(chosen.endpoint, t.description, t.context)
          case Returned(reply) =>
            Step(withResource.(status := Completed, result := Some(AgentReply(reply))), AgentReply(reply), cached, found.nextFresh)
          case Raised(message) =>
            Step(withResource.(status := Failed, result := Some(Error(message))), Error(message), cached, found.nextFresh)
  }

  /** One iteration of the task loop as a function of the pool and counter it
      starts from and of the task. */
  type Stepper = (Pool, nat, Task) -> Step

  /** The iteration of the agent whose collaborators are `cfg`. */
  function StepWith(cfg: Config): Stepper {
    (pool: Pool, nextFresh: nat, t: Task) => RunTask(cfg, pool, nextFresh, t)
  }

  /** What every iteration guarantees: the pool stays well formed, the counter
      never goes back, and the task keeps its id, leaves `pending` and records
      its result. */
  ghost predicate SoundStep(step: Stepper) {
    forall pool: Pool, nextFresh: nat, t: Task ::
      && (pool.Valid() ==> step(pool, nextFresh, t).pool.Valid())
      && step(pool, nextFresh, t).nextFresh >= nextFresh
      && step(pool, nextFresh, t).task.id == t.id
      && step(pool, nextFresh, t).task.result == Some(step(pool, nextFresh, t).result)
      && step(pool, nextFresh, t).task.status != Pending
  }

  lemma StepWithSound(cfg: Config)
    ensures SoundStep(StepWith(cfg))
  {
    forall pool: Pool, nextFresh: nat, t: Task
      ensures var s := StepWith(cfg)(pool, nextFresh, t);
        && (pool.Valid() ==> s.pool.Valid()) && s.nextFresh >= nextFresh
        && s.task.id == t.id && s.task.result == Some(s.result) && s.task.status != Pending
    {
      assert StepWith(cfg)(pool, nextFresh, t) == RunTask(cfg, pool, nextFresh, t);
    }
  }

  /** The task loop so far: the tasks as they ended, `results`, pool, counter. */
  datatype Run = Run(done: seq<Task>, results: seq<TaskResult>, pool: Pool, nextFresh: nat)

  /** The task loop: each task in order, from the pool and counter the ones
      before it left. */
  function RunAll(step: Stepper, pool: Pool, nextFresh: nat, tasks: seq<Task>): (r: Run)
    ensures |r.done| == |tasks| && |r.results| == |tasks|
  {
    if tasks == [] then Run([], [], pool, nextFresh)
    else
      var prev := RunAll(step, pool, nextFresh, tasks[..|tasks| - 1]);
      var s := step(prev.pool, prev.nextFresh, tasks[|tasks| - 1]);
      Run(prev.done + [s.task], prev.results + [s.result], s.pool, s.nextFresh)
  }

  /** With a sound iteration, the loop keeps the pool well formed, never moves
      the counter back, and ends every task with its own id, completed or
      failed, with its result recorded at the same position of `results`. */
  lemma {:induction false} RunAllShape(step: Stepper, pool: Pool, nextFresh: nat, tasks: seq<Task>)
    requires SoundStep(step)
    ensures var r := RunAll(step, pool, nextFresh, tasks);
      && (pool.Valid() ==> r.pool.Valid()) && r.nextFresh >= nextFresh
      && forall i :: 0 <= i < |tasks| ==>
           && r.done[i].id == tasks[i].id
           && r.done[i].result == Some(r.results[i])
           && r.done[i].status != Pending
    decreases |tasks|
  {
    if tasks != [] {
      var n := |tasks| - 1;
      var prev := RunAll(step, pool, nextFresh, tasks[..n]);
      var s := step(prev.pool, prev.nextFresh, tasks[n]);
      var r := RunAll(step, pool, nextFresh, tasks);
      assert r.done == prev.done + [s.task] && r.results == prev.results + [s.result];
      RunAllShape(step, pool, nextFresh, tasks[..n]);
      forall i | 0 <= i < |tasks|
        ensures r.done[i].id == tasks[i].id && r.done[i].result == Some(r.results[i]) && r.done[i].status != Pending
      {
        if i < n {
          assert r.done[i] == prev.done[i] && r.results[i] == prev.results[i] && tasks[..n][i] == tasks[i];
        }
      }
    }
  }

  /** Running a prefix of the plan is the same as the first part of running all of it. */
  lemma {:induction false} RunAllPrefix(step: Stepper, pool: Pool, nextFresh: nat, tasks: seq<Task>, m: nat)
    requires m <= |tasks|
    ensures var whole := RunAll(step, pool, nextFresh, tasks);
      var part := RunAll(step, pool, nextFresh, tasks[..m]);
      part.done == whole.done[..m] && part.results == whole.results[..m]
    decreases |tasks|
  {
    if m < |tasks| {
      var n := |tasks| - 1;
      var prev := RunAll(step, pool, nextFresh, tasks[..n]);
      var s := step(prev.pool, prev.nextFresh, tasks[n]);
      var whole := RunAll(step, pool, nextFresh, tasks);
      assert whole.done == prev.done + [s.task] && whole.results == prev.results + [s.result];
      assert whole.done[..m] == prev.done[..m] && whole.results[..m] == prev.results[..m];
      assert tasks[..n][..m] == tasks[..m];
      RunAllPrefix(step, pool, nextFresh, tasks[..n], m);
    } else {
      assert tasks[..m] == tasks;
    }
  }

  /** Partial failure: every task of the plan is run, in plan order, from the
      pool and counter the earlier tasks left, whatever their outcome was. */
  lemma EveryTaskRuns(step: Stepper, pool: Pool, nextFresh: nat, tasks: seq<Task>, i: nat)
    requires i < |tasks|
    ensures var whole := RunAll(step, pool, nextFresh, tasks);
      var before := RunAll(step, pool, nextFresh, tasks[..i]);
      var s := step(before.pool, before.nextFresh, tasks[i]);
      whole.done[i] == s.task && whole.results[i] == s.result
  {
    RunAllPrefix(step, pool, nextFresh, tasks, i + 1);
    assert tasks[..i + 1][..i] == tasks[..i];
  }

  /** A local hit answers the task without asking any gateway: the outcome does
      not depend on the gateways or the protocol clients, the pool and counter
      are untouched, no resource is assigned, and the task completes with the
      `_execute_with_resource` result for the cached resource. */
  lemma LocalHitSkipsDiscovery(cfg: Config, other: Config, pool: Pool, nextFresh: nat, t: Task)
    requires pool.Valid() && LocalHit(pool, t.requirements).Some?
    ensures RunTask(cfg, pool, nextFresh, t) == RunTask(other, pool, nextFresh, t)
    ensures var s := RunTask(cfg, pool, nextFresh, t);
      && s.pool == pool && s.nextFresh == nextFresh
      && s.task.assignedResource == t.assignedResource
      && s.task.status == Completed
      && s.result == ExecuteWithResource(t, LocalHit(pool, t.requirements).value)
  {
  }

  /** Without a local hit, the candidates are those the gateways return, ranked;
      all of them are cached, and the first is the one assigned. An empty
      ranking completes the task with the "no suitable resources" error. */
  lemma DiscoveryPath(cfg: Config, pool: Pool, nextFresh: nat, t: Task)
    requires pool.Valid() && LocalHit(pool, t.requirements).None?
    ensures var found := Discover(cfg.gateways, cfg.mcp, t.requirements, nextFresh);
      var ranked := Rank(found.resources, t.requirements);
      var s := RunTask(cfg, pool, nextFresh, t);
      && s.pool == PutAll(pool, ranked) && s.nextFresh == found.nextFresh
      && (ranked == [] ==> s.task.status == Completed && s.result == Error(NoSuitableResources)
                           && s.task.assignedResource == t.assignedResource)
      && (ranked != [] ==> s.task.assignedResource == Some(ranked[0].id))
      && (ranked != [] && cfg.a2a.None? ==>
            s.task.status == Completed
            && s.result == ExecuteWithResource(t.(assignedResource := Some(ranked[0].id)), ranked[0]))
      && (ranked != [] && cfg.a2a.Some? && cfg.a2a.value.invokeAgent(ranked[0].endpoint, t.description, t.context).Returned? ==>
            s.task.status == Completed
            && s.result == AgentReply(cfg.a2a.value.invokeAgent(ranked[0].endpoint, t.description, t.context).value))
  {
    var found := Discover(cfg.gateways, cfg.mcp, t.requirements, nextFresh);
    var ranked := Rank(found.resources, t.requirements);
    var s := RunTask(cfg, pool, nextFresh, t);
    if ranked == [] {
      assert s == Step(t.(status := Completed, result := Some(Error(NoSuitableResources))),
                       Error(NoSuitableResources), PutAll(pool, ranked), found.nextFresh);
    } else {
      var withResource := t.(assignedResource := Some(ranked[0].id));
      match cfg.a2a {
        case None =>
          var res := ExecuteWithResource(withResource, ranked[0]);
          assert s == Step(withResource.(status := Completed, result := Some(res)), res, PutAll(pool, ranked), found.nextFresh);
        case Some(a2a) =>
          match a2a.invokeAgent(ranked[0].endpoint, t.description, t.context) {
            case Returned(reply) =>
              assert s == Step(withResource.(status := Completed, result := Some(AgentReply(reply))), AgentReply(reply),
                               PutAll(pool, ranked), found.nextFresh);
            case Raised(message) =>
              assert s == Step(withResource.(status := Failed, result := Some(Error(message))), Error(message),
                               PutAll(pool, ranked), found.nextFresh);
          }
      }
    }
  }

  /** A task fails exactly when it went to the gateways, a resource was chosen,
      and the A2A invocation raised; its result is then that exception's message. */
  lemma FailsOnlyWhenInvocationRaises(cfg: Config, pool: Pool, nextFresh: nat, t: Task)
    requires pool.Valid()
    ensures var s := RunTask(cfg, pool, nextFresh, t);
      var ranked := Rank(Discover(cfg.gateways, cfg.mcp, t.requirements, nextFresh).resources, t.requirements);
      s.task.status == Failed <==>
        && LocalHit(pool, t.requirements).None?
        && ranked != []
        && cfg.a2a.Some?
        && cfg.a2a.value.invokeAgent(ranked[0].endpoint, t.description, t.context).Raised?
    ensures var s := RunTask(cfg, pool, nextFresh, t);
      s.task.status == Failed ==>
        var ranked := Rank(Discover(cfg.gateways, cfg.mcp, t.requirements, nextFresh).resources, t.requirements);
        s.result == Error(cfg.a2a.value.invokeAgent(ranked[0].endpoint, t.description, t.context).message)
  {
  }
}
