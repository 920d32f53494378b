/**
 * src/prefect/agent/agent.py: the polling and bookkeeping rules of the
 * base `Agent`. Each method is one atomic step; GraphQL responses are
 * parameters, and the client calls a method makes are returned as values.
 */
module PrefectAgent {
  import opened Wrappers
  import opened Builtins

  datatype AgentError = AuthorizationError(message: string) | ConnectionError(message: string)

  /**
   * `_verify_token`: an empty token is refused before any query; otherwise
   * the scope the authInfo query reports (`scope`, None when the response has
   * no data) must be exactly "RUNNER".
   */
  function VerifyToken(token: Option<string>, scope: Option<string>): (r: Outcome<AgentError>)
    ensures r == Pass <==> Truthy(token) && scope == Some("RUNNER")
    ensures !Truthy(token) ==> r == Fail(AuthorizationError("No agent API token provided."))
    ensures Truthy(token) && scope != Some("RUNNER") ==>
              r == Fail(AuthorizationError("Provided token does not have a RUNNER scope."))
  {
    if !Truthy(token) then Fail(AuthorizationError("No agent API token provided."))
    else if scope.None? || scope.value != "RUNNER" then
      Fail(AuthorizationError("Provided token does not have a RUNNER scope."))
    else Pass
  }

  /** `query_tenant_id`: the id of the first tenant the query returns, if any. */
  function QueryTenantId(tenants: seq<string>): (r: Option<string>)
    ensures r.Some? <==> |tenants| > 0
    ensures r.Some? ==> r.value == tenants[0]
  {
    if |tenants| > 0 then Some(tenants[0]) else None
  }

  /** `agent_connect`: a missing or empty tenant id raises ConnectionError. */
  function AgentConnect(tenants: seq<string>): (r: Result<string, AgentError>)
    ensures r.Ok? <==> |tenants| > 0 && tenants[0] != ""
    ensures r.Ok? ==> r.value == tenants[0]
    ensures r.Err? ==>
              r.error == ConnectionError("Tenant ID not found. Verify that you are using the proper API token.")
  {
    var tenantId := QueryTenantId(tenants);
    if !Truthy(tenantId) then
      Err(ConnectionError("Tenant ID not found. Verify that you are using the proper API token."))
    else Ok(tenantId.value)
  }

  /** `loop_intervals`: the sleep in seconds before the next poll, per back-off index. */
  const LoopIntervals: map<nat, real> :=
    map[0 := 0.25, 1 := 0.5, 2 := 1.0, 3 := 2.0, 4 := 4.0, 5 := 8.0, 6 := 10.0]

  /** `max(loop_intervals.keys())`. */
  const MaxIndex: nat := 6

  /** The number of polls at the end of `polls` that found no flow run. */
  function TrailingEmpty(polls: seq<bool>): nat
    decreases |polls|
  {
    if polls == [] || polls[|polls| - 1] then 0 else TrailingEmpty(polls[..|polls| - 1]) + 1
  }

  /**
   * The polling loop of `start`. `polls` holds what `agent_process` returned
   * on each pass before the exit event fired; `waits` the timeout of every
   * wait, the last being the one the exit event interrupts. The index
   * resets after a poll that found runs and otherwise grows up to 6, so it
   * is the number of trailing empty polls, capped at 6.
   */
  method PollLoop(polls: seq<bool>) returns (index: nat, waits: seq<real>)
    ensures index <= MaxIndex
    ensures index == Min(TrailingEmpty(polls), MaxIndex)
    ensures |waits| == |polls| + 1
    ensures forall i :: 0 <= i <= |polls| ==>
              waits[i] == LoopIntervals[Min(TrailingEmpty(polls[..i]), MaxIndex)]
    ensures forall i :: 0 <= i < |waits| ==> 0.25 <= waits[i] <= 10.0
  {
    index := 0;
    waits := [LoopIntervals[index]];
    var i := 0;
    while i < |polls|
      invariant 0 <= i <= |polls|
      invariant index == Min(TrailingEmpty(polls[..i]), MaxIndex)
      invariant |waits| == i + 1
      invariant forall j :: 0 <= j <= i ==>
                  waits[j] == LoopIntervals[Min(TrailingEmpty(polls[..j]), MaxIndex)]
      invariant forall j :: 0 <= j <= i ==> 0.25 <= waits[j] <= 10.0
    {
      assert polls[..i + 1][..i] == polls[..i];
      if polls[i] {
        index := 0;
      } else if index < MaxIndex {
        index := index + 1;
      }
      waits := waits + [LoopIntervals[index]];
      i := i + 1;
    }
    assert polls[..i] == polls;
  }

  datatype TaskRun = TaskRun(id: string, version: int, scheduled: bool)

  /** A flow run of the metadata query; `scheduled` is `is_scheduled()` of its deserialised state. */
  datatype FlowRun = FlowRun(id: string, version: int, scheduled: bool, taskRuns: seq<TaskRun>)

  /** The state sent to Cloud, by its message; the previous state a `Submitted` wraps is not modelled. */
  datatype NewState = Submitted(message: string) | Failed(message: string)

  /** The client calls the agent makes on Prefect Cloud. */
  datatype ClientCall =
    | SetFlowRunState(flowRunId: string, version: int, state: NewState)
    | SetTaskRunState(taskRunId: string, version: int, state: NewState)
    | WriteRunLog(logFlowRunId: string, name: string, message: string, level: string)

  /** A GraphQL query that raised. */
  datatype QueryError = QueueQueryFailed | MetadataQueryFailed

  /** The runs `query_flow_runs` returns and the ids its metadata query asked for (None: no such query). */
  datatype FlowRunQuery = FlowRunQuery(result: Result<seq<FlowRun>, QueryError>, metadataIds: Option<set<string>>)

  /** The queued ids that are not already being submitted. */
  function TargetIds(found: set<string>, snapshot: set<string>): (target: set<string>)
    ensures target <= found
    ensures target !! snapshot
    ensures target + (found * snapshot) == found
  {
    var alreadySubmitting := found * snapshot;
    found - alreadySubmitting
  }

  function IdsOf(runs: seq<FlowRun>): set<string> {
    set i | 0 <= i < |runs| :: runs[i].id
  }

  class Agent {
    /** The ids of flow runs whose deployment has been handed to the executor and has not completed. */
    var submittingFlowRuns: set<string>
    const name: string

    constructor (name: string)
      ensures this.name == name && submittingFlowRuns == {}
    {
      this.name := name;
      submittingFlowRuns := {};
    }

    /**
     * `query_flow_runs`. `queue` is the `flow_run_ids` the getRunsInQueue
     * mutation returns, `metadata` the `flow_run` list of the metadata query;
     * None stands for a query that raised. The metadata query is issued
     * only for a non-empty set of targets.
     */
    function QueryFlowRuns(queue: Option<seq<string>>, metadata: Option<seq<FlowRun>>): (q: FlowRunQuery)
      reads this
      ensures queue.None? ==> q == FlowRunQuery(Err(QueueQueryFailed), None)
      ensures queue.Some? && TargetIds(Elements(queue.value), submittingFlowRuns) == {} ==>
                q == FlowRunQuery(Ok([]), None)
      ensures queue.Some? && TargetIds(Elements(queue.value), submittingFlowRuns) != {} ==>
                q.metadataIds == Some(TargetIds(Elements(queue.value), submittingFlowRuns)) &&
                q.result == (if metadata.Some? then Ok(metadata.value) else Err(MetadataQueryFailed))
      ensures q.metadataIds.Some? ==>
                q.metadataIds.value != {} && q.metadataIds.value <= Elements(queue.value) &&
                q.metadataIds.value !! submittingFlowRuns
    {
      var currentlySubmitting := submittingFlowRuns;
      if queue.None? then FlowRunQuery(Err(QueueQueryFailed), None)
      else
        var flowRunIds := Elements(queue.value);
        var target := TargetIds(flowRunIds, currentlySubmitting);
        if target != {} then
          FlowRunQuery(if metadata.Some? then Ok(metadata.value) else Err(MetadataQueryFailed), Some(target))
        else FlowRunQuery(Ok([]), None)
    }

    /**
     * `agent_process`: every returned run is handed to the executor and its
     * id added to `submittingFlowRuns`; a query that raised is logged and
     * submits nothing. The result says whether runs were found.
     */
    method AgentProcess(queue: Option<seq<string>>, metadata: Option<seq<FlowRun>>)
      returns (found: bool, submitted: seq<FlowRun>)
      modifies this
      ensures var q := old(QueryFlowRuns(queue, metadata));
              submitted == (if q.result.Ok? then q.result.value else [])
      ensures submittingFlowRuns == old(submittingFlowRuns) + IdsOf(submitted)
      ensures found <==> |submitted| > 0
    {
      var q := QueryFlowRuns(queue, metadata);
      submitted := [];
      if q.result.Ok? {
        var flowRuns := q.result.value;
        var i := 0;
        while i < |flowRuns|
          invariant 0 <= i <= |flowRuns|
          invariant submittingFlowRuns == old(submittingFlowRuns) + IdsOf(flowRuns[..i])
        {
          assert IdsOf(flowRuns[..i + 1]) == IdsOf(flowRuns[..i]) + {flowRuns[i].id} by {
            assert forall j :: 0 <= j < i ==> flowRuns[..i + 1][j] == flowRuns[..i][j];
          }
          submittingFlowRuns := submittingFlowRuns + {flowRuns[i].id};
          i := i + 1;
        }
        assert flowRuns[..i] == flowRuns;
        submitted := flowRuns;
      }
      found := |submitted| > 0;
    }

    /** `on_flow_run_deploy_attempt`: removes that one id; `set.remove` of a missing id raises KeyError. */
    method OnFlowRunDeployAttempt(flowRunId: string) returns (r: Outcome<string>)
      modifies this
      ensures flowRunId in old(submittingFlowRuns) ==>
                r == Pass && submittingFlowRuns == old(submittingFlowRuns) - {flowRunId}
      ensures flowRunId !in old(submittingFlowRuns) ==>
                r == Fail(flowRunId) && submittingFlowRuns == old(submittingFlowRuns)
    {
      if flowRunId !in submittingFlowRuns {
        return Fail(flowRunId);
      }
      submittingFlowRuns := submittingFlowRuns - {flowRunId};
      r := Pass;
    }
  }

  /**
   * Two polls with no deployment completing in between: a run the first
   * poll submitted is not asked for again by the second poll's metadata
   * query, because its id is still in `submittingFlowRuns`.
   */
  method PollTwice(agent: Agent, queue: Option<seq<string>>, metadata: Option<seq<FlowRun>>,
                   nextQueue: Option<seq<string>>, nextMetadata: Option<seq<FlowRun>>)
    returns (submitted: seq<FlowRun>, next: FlowRunQuery)
    modifies agent
    ensures agent.submittingFlowRuns == old(agent.submittingFlowRuns) + IdsOf(submitted)
    ensures next == agent.QueryFlowRuns(nextQueue, nextMetadata)
    ensures next.metadataIds.Some? ==> next.metadataIds.value !! old(agent.submittingFlowRuns) + IdsOf(submitted)
  {
    var found;
    found, submitted := agent.AgentProcess(queue, metadata);
    next := agent.QueryFlowRuns(nextQueue, nextMetadata);
  }

  /** The `Submitted` calls of `update_state` for the task runs, in order. */
  function TaskRunCalls(taskRuns: seq<TaskRun>): seq<ClientCall>
    decreases |taskRuns|
  {
    if taskRuns == [] then []
    else
      var front := TaskRunCalls(taskRuns[..|taskRuns| - 1]);
      var t := taskRuns[|taskRuns| - 1];
      if t.scheduled then front + [SetTaskRunState(t.id, t.version, Submitted("Submitted for execution."))]
      else front
  }

  /**
   * `update_state`: the flow run, then each task run in order, is set to
   * `Submitted` exactly when it is currently scheduled.
   */
  method UpdateState(flowRun: FlowRun) returns (calls: seq<ClientCall>)
    ensures calls ==
              (if flowRun.scheduled
               then [SetFlowRunState(flowRun.id, flowRun.version, Submitted("Submitted for execution"))]
               else []) + TaskRunCalls(flowRun.taskRuns)
  {
    calls := [];
    if flowRun.scheduled {
      calls := calls + [SetFlowRunState(flowRun.id, flowRun.version, Submitted("Submitted for execution"))];
    }
    var head := calls;
    var taskRuns := flowRun.taskRuns;
    for i := 0 to |taskRuns|
      invariant calls == head + TaskRunCalls(taskRuns[..i])
    {
      assert taskRuns[..i + 1][..i] == taskRuns[..i];
      var taskRun := taskRuns[i];
      if taskRun.scheduled {
        calls := calls + [SetTaskRunState(taskRun.id, taskRun.version, Submitted("Submitted for execution."))];
      }
    }
    assert taskRuns[..|taskRuns|] == taskRuns;
  }

  /** The positions of the scheduled task runs. */
  ghost function ScheduledPositions(taskRuns: seq<TaskRun>): set<nat> {
    set i: nat | i < |taskRuns| && taskRuns[i].scheduled
  }

  /**
   * Exactly the scheduled task runs are moved to `Submitted`: every call is
   * for one of them, each of them gets one, and there are as many calls as
   * scheduled task runs.
   */
  lemma TaskRunCallsExact(taskRuns: seq<TaskRun>)
    ensures |TaskRunCalls(taskRuns)| == |ScheduledPositions(taskRuns)|
    ensures forall c :: c in TaskRunCalls(taskRuns) ==>
              exists i :: 0 <= i < |taskRuns| && taskRuns[i].scheduled &&
                          c == SetTaskRunState(taskRuns[i].id, taskRuns[i].version, Submitted("Submitted for execution."))
    ensures forall i :: 0 <= i < |taskRuns| && taskRuns[i].scheduled ==>
              SetTaskRunState(taskRuns[i].id, taskRuns[i].version, Submitted("Submitted for execution."))
                in TaskRunCalls(taskRuns)
  {
    TaskRunCallsCount(taskRuns);
    TaskRunCallsSound(taskRuns);
    TaskRunCallsComplete(taskRuns);
  }

  /** One call per scheduled task run. */
  lemma {:induction false} TaskRunCallsCount(taskRuns: seq<TaskRun>)
    ensures |TaskRunCalls(taskRuns)| == |ScheduledPositions(taskRuns)|
    decreases |taskRuns|
  {
    if taskRuns != [] {
      var n := |taskRuns| - 1;
      var front := taskRuns[..n];
      TaskRunCallsCount(front);
      var last: set<nat> := if taskRuns[n].scheduled then {n} else {};
      forall i: nat ensures i in ScheduledPositions(taskRuns) <==> i in ScheduledPositions(front) + last {
        if i < n {
          assert taskRuns[i] == front[i];
        }
      }
      assert ScheduledPositions(taskRuns) == ScheduledPositions(front) + last;
    }
  }

  /** Every call is the `Submitted` call of a scheduled task run. */
  lemma {:induction false} TaskRunCallsSound(taskRuns: seq<TaskRun>)
    ensures forall c :: c in TaskRunCalls(taskRuns) ==>
              exists i :: 0 <= i < |taskRuns| && taskRuns[i].scheduled &&
                          c == SetTaskRunState(taskRuns[i].id, taskRuns[i].version, Submitted("Submitted for execution."))
    decreases |taskRuns|
  {
    if taskRuns != [] {
      var n := |taskRuns| - 1;
      var front := taskRuns[..n];
      TaskRunCallsSound(front);
      forall c | c in TaskRunCalls(taskRuns)
        ensures exists i :: 0 <= i < |taskRuns| && taskRuns[i].scheduled &&
                            c == SetTaskRunState(taskRuns[i].id, taskRuns[i].version, Submitted("Submitted for execution."))
      {
        if c in TaskRunCalls(front) {
          var i :| 0 <= i < |front| && front[i].scheduled &&
                   c == SetTaskRunState(front[i].id, front[i].version, Submitted("Submitted for execution."));
          assert taskRuns[i] == front[i];
        }
      }
    }
  }

  /** Every scheduled task run gets its `Submitted` call. */
  lemma {:induction false} TaskRunCallsComplete(taskRuns: seq<TaskRun>)
    ensures forall i :: 0 <= i < |taskRuns| && taskRuns[i].scheduled ==>
              SetTaskRunState(taskRuns[i].id, taskRuns[i].version, Submitted("Submitted for execution."))
                in TaskRunCalls(taskRuns)
    decreases |taskRuns|
  {
    if taskRuns != [] {
      var n := |taskRuns| - 1;
      var front := taskRuns[..n];
      TaskRunCallsComplete(front);
      forall i | 0 <= i < n && taskRuns[i].scheduled
        ensures SetTaskRunState(taskRuns[i].id, taskRuns[i].version, Submitted("Submitted for execution."))
                  in TaskRunCalls(taskRuns)
      {
        assert taskRuns[i] == front[i];
      }
    }
  }

  /** `t` occurs in `s` at position `i`. */
  predicate OccursAt(s: string, t: string, i: nat) {
    i + |t| <= |s| && s[i..i + |t|] == t
  }

  /** Python's `t in s` for strings. */
  function Contains(s: string, t: string): (b: bool)
    ensures b <==> exists i: nat :: OccursAt(s, t, i)
    decreases |s|
  {
    if |t| <= |s| && s[..|t|] == t then
      assert OccursAt(s, t, 0);
      true
    else if |s| == 0 then
      assert forall i: nat :: !OccursAt(s, t, i);
      false
    else
      var b := Contains(s[1..], t);
      assert b ==> exists i: nat :: OccursAt(s, t, i) by {
        if b {
          var i: nat :| OccursAt(s[1..], t, i);
          assert s[i + 1..i + 1 + |t|] == s[1..][i..i + |t|];
          assert OccursAt(s, t, i + 1);
        }
      }
      assert (exists i: nat :: OccursAt(s, t, i)) ==> b by {
        if exists i: nat :: OccursAt(s, t, i) {
          var i: nat :| OccursAt(s, t, i);
          assert i != 0;
          assert s[1..][i - 1..i - 1 + |t|] == s[i..i + |t|];
          assert OccursAt(s[1..], t, i - 1);
        }
      }
      b
  }

  /** How the deployment went: `deploy_flow`'s info string, or the message of the exception the attempt raised. */
  datatype Deployment = Deployed(info: string) | Raised(message: string)

  predicate MarksFailed(calls: seq<ClientCall>) {
    exists i :: 0 <= i < |calls| && calls[i].SetFlowRunState? && calls[i].state.Failed?
  }

  /**
   * The client calls `deploy_and_update_flow_run` makes after `update_state`
   * and `deploy_flow`: an INFO log on success; on an exception, nothing when
   * the message contains "State update failed", otherwise an ERROR log and
   * the `Failed` state. A log is written only for a run with a non-empty id.
   */
  function DeployAndUpdateFlowRun(agentName: string, flowRun: FlowRun, deployment: Deployment): (calls: seq<ClientCall>)
    ensures MarksFailed(calls) <==> deployment.Raised? && !Contains(deployment.message, "State update failed")
    ensures MarksFailed(calls) ==>
              calls[|calls| - 1] == SetFlowRunState(flowRun.id, flowRun.version, Failed(deployment.message))
    ensures deployment.Raised? && Contains(deployment.message, "State update failed") ==> calls == []
    ensures deployment.Deployed? ==>
              calls == (if flowRun.id != ""
                        then [WriteRunLog(flowRun.id, agentName, "Submitted for execution: " + deployment.info, "INFO")]
                        else [])
    ensures MarksFailed(calls) ==>
              calls[..|calls| - 1] == (if flowRun.id != ""
                                       then [WriteRunLog(flowRun.id, agentName, deployment.message, "ERROR")]
                                       else [])
  {
    var hasId := flowRun.id != "";
    match deployment
    case Deployed(info) =>
      if hasId then [WriteRunLog(flowRun.id, agentName, "Submitted for execution: " + info, "INFO")] else []
    case Raised(message) =>
      if Contains(message, "State update failed") then []
      else
        var calls := (if hasId then [WriteRunLog(flowRun.id, agentName, message, "ERROR")] else []) +
                     [SetFlowRunState(flowRun.id, flowRun.version, Failed(message))];
        assert calls[|calls| - 1].state.Failed?;
        calls
  }
}
