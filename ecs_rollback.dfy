/**
 * The ROLLBACK stage of the ECS executor: restore the service and task
 * definition of the running (pre-deployment) commit, put a new task set at
 * full scale in front of production traffic, reset the load balancer's
 * listener weights to 100/0 and delete the task sets that were active before.
 *
 * Each step is a remote call; the first failing call ends the stage. The
 * functions RollbackRun, ElbRun and DeleteRun say which calls a run issues
 * against a scripted platform and whether it succeeds; the methods Rollback,
 * RollbackElb, EnsureRollback and Execute are proved to issue exactly those
 * calls, and the lemmas state what the runs guarantee.
 */
module EcsRollback {
  import opened Wrappers
  import opened EcsPlatform

  // ---------------------------------------------------------------------
  // Stage vocabulary and the executor's input
  // ---------------------------------------------------------------------

  /** The stage statuses the executor reports. */
  datatype StageStatus =
    | StageNotStartedYet | StageRunning | StageSuccess | StageFailure
    | StageCancelled | StageSkipped | StageExited

  /** What the stop signal has observed when the stage ends. */
  datatype StopSignalType = StopSignalNone | StopSignalTerminate | StopSignalCancel | StopSignalTimeout

  /** The stage name this executor handles. */
  const StageRollback: string := "ROLLBACK"

  /** The shared-metadata key under which a traffic-routing stage records the
      canary target group it touched. */
  const CanaryTargetGroupArnKey: string := "canary-target-group-arn"

  /** The parts of the running commit's ECS application configuration the loaders need. */
  datatype EcsApplicationSpec = EcsApplicationSpec(taskDefinitionFile: string, serviceDefinitionFile: string)

  /** The deploy source of the running commit; its ECS section may be missing. */
  datatype DeploySource = DeploySource(ecsSpec: Option<EcsApplicationSpec>)

  /** The platform provider the application is bound to. */
  datatype PlatformProvider = PlatformProvider(name: string)

  /** The primary and canary target groups of the running commit; either may be absent. */
  datatype TargetGroups = TargetGroups(primary: Option<LoadBalancer>, canary: Option<LoadBalancer>)

  /**
   * The executor's input. The loaders are oracles: each gives the value it
   * loads, or None when it fails.
   */
  datatype Input = Input(
    stageName: string,
    stageStatus: StageStatus,
    runningCommitHash: string,
    runningSource: Option<DeploySource>,
    platformProvider: Option<PlatformProvider>,
    loadTaskDefinition: (string, DeploySource) -> Option<TaskDefinition>,
    loadServiceDefinition: (string, DeploySource) -> Option<Service>,
    loadTargetGroups: (EcsApplicationSpec, DeploySource) -> Option<TargetGroups>,
    createClient: PlatformProvider -> bool,
    sharedMetadata: map<string, string>)

  /** Everything rollback is given once the loaders have succeeded. */
  datatype RollbackArgs = RollbackArgs(
    clientCreated: bool,
    taskDefinition: TaskDefinition,
    serviceDefinition: Service,
    primary: Option<LoadBalancer>,
    canary: Option<LoadBalancer>)

  /** The calls a step issues and whether it succeeded. */
  datatype Run = Run(calls: seq<Call>, ok: bool)

  /** The calls a stage issues and the status it reports. */
  datatype Outcome = Outcome(status: StageStatus, calls: seq<Call>)

  // ---------------------------------------------------------------------
  // Listener reset
  // ---------------------------------------------------------------------

  datatype CanaryChoice = UseCanary(arn: Arn) | SkipReset

  /** Where the canary target group comes from: the running commit's
      configuration first, then the shared metadata; otherwise the listeners
      were never touched and their reset is skipped. */
  function SelectCanary(canary: Option<LoadBalancer>, shared: map<string, string>): (c: CanaryChoice)
    ensures canary.Some? ==> c == UseCanary(canary.value.targetGroupArn)
    ensures canary.None? && CanaryTargetGroupArnKey in shared ==> c == UseCanary(shared[CanaryTargetGroupArnKey])
    ensures c.SkipReset? <==> canary.None? && CanaryTargetGroupArnKey !in shared
  {
    match canary
    case Some(tg) => UseCanary(tg.targetGroupArn)
    case None =>
      if CanaryTargetGroupArnKey in shared then UseCanary(shared[CanaryTargetGroupArnKey]) else SkipReset
  }

  /** When the running commit has a canary group, the metadata is not consulted. */
  lemma SelectCanaryIgnoresMetadata(tg: LoadBalancer, shared1: map<string, string>, shared2: map<string, string>)
    ensures SelectCanary(Some(tg), shared1) == SelectCanary(Some(tg), shared2)
  {
  }

  function TotalWeight(cfg: RoutingTrafficConfig): int
  {
    if cfg == [] then 0 else cfg[0].weight + TotalWeight(cfg[1..])
  }

  /** The routing that sends all traffic to the primary group and none to the canary. */
  function ResetRouting(primaryArn: Arn, canaryArn: Arn): (cfg: RoutingTrafficConfig)
    ensures |cfg| == 2
    ensures cfg[0] == RoutingTrafficEntry(primaryArn, 100) && cfg[1] == RoutingTrafficEntry(canaryArn, 0)
    ensures TotalWeight(cfg) == 100
  {
    var cfg := [RoutingTrafficEntry(primaryArn, 100), RoutingTrafficEntry(canaryArn, 0)];
    assert TotalWeight(cfg[1..]) == 0 by { assert cfg[1..][1..] == []; }
    cfg
  }

  /** The calls of the listener reset and whether it succeeded. */
  function ElbRun(primary: LoadBalancer, canary: Option<LoadBalancer>, shared: map<string, string>, s: Script): Run
  {
    match SelectCanary(canary, shared)
    case SkipReset => Run([], true)
    case UseCanary(canaryArn) =>
      var getListeners := GetListenerArns(primary);
      if !s.listenerArns.Ok? then Run([getListeners], false)
      else Run([getListeners, ModifyListeners(s.listenerArns.value, ResetRouting(primary.targetGroupArn, canaryArn))],
               !s.modifyListeners.failed)
  }

  method RollbackElb(primary: LoadBalancer, canary: Option<LoadBalancer>, shared: map<string, string>, client: Client)
    returns (ok: bool)
    modifies client
    ensures client.trace == old(client.trace) + ElbRun(primary, canary, shared, client.script).calls
    ensures ok == ElbRun(primary, canary, shared, client.script).ok
  {
    var canaryArn: Arn;
    if canary.None? {
      if CanaryTargetGroupArnKey !in shared {
        return true;
      }
      canaryArn := shared[CanaryTargetGroupArnKey];
    } else {
      canaryArn := canary.value.targetGroupArn;
    }
    var routing := [RoutingTrafficEntry(primary.targetGroupArn, 100), RoutingTrafficEntry(canaryArn, 0)];
    var listeners := client.GetListenerArns(primary);
    if !listeners.Ok? {
      return false;
    }
    var modified := client.ModifyListeners(listeners.value, routing);
    if modified.failed {
      // The rules that were modified are only reported, never undone.
      return false;
    }
    return true;
  }

  // ---------------------------------------------------------------------
  // Deleting the previous task sets
  // ---------------------------------------------------------------------

  /** Deleting the task sets in order, stopping at the first that cannot be deleted. */
  function DeleteRun(ts: seq<TaskSet>, s: Script): Run
  {
    if ts == [] then Run([], true)
    else if ts[0] in s.undeletable then Run([DeleteTaskSet(ts[0])], false)
    else
      var rest := DeleteRun(ts[1..], s);
      Run([DeleteTaskSet(ts[0])] + rest.calls, rest.ok)
  }

  /** The one DeleteTaskSet call per task set. */
  function DeleteCalls(ts: seq<TaskSet>): (calls: seq<Call>)
    ensures DeletedTaskSets(calls) == ts
  {
    var calls := seq(|ts|, i requires 0 <= i < |ts| => DeleteTaskSet(ts[i]));
    DeletedTaskSetsOfPrefix(calls, ts);
    assert ts[..|calls|] == ts;
    calls
  }

  /** The task sets a trace deletes, in the order it deletes them. */
  function DeletedTaskSets(calls: seq<Call>): seq<TaskSet>
  {
    if calls == [] then []
    else if calls[0].DeleteTaskSet? then [calls[0].taskSet] + DeletedTaskSets(calls[1..])
    else DeletedTaskSets(calls[1..])
  }

  lemma {:induction false} DeletedTaskSetsAppend(a: seq<Call>, b: seq<Call>)
    ensures DeletedTaskSets(a + b) == DeletedTaskSets(a) + DeletedTaskSets(b)
  {
    if a != [] {
      assert (a + b)[0] == a[0];
      assert (a + b)[1..] == a[1..] + b;
      DeletedTaskSetsAppend(a[1..], b);
    } else {
      assert a + b == b;
    }
  }

  /** A trace without DeleteTaskSet calls deletes nothing. */
  lemma {:induction false} DeletedTaskSetsNone(calls: seq<Call>)
    requires forall i :: 0 <= i < |calls| ==> !calls[i].DeleteTaskSet?
    ensures DeletedTaskSets(calls) == []
  {
    if calls != [] {
      DeletedTaskSetsNone(calls[1..]);
    }
  }

  /** A trace that deletes a prefix of ts, one task set per call, deletes exactly that prefix. */
  lemma {:induction false} DeletedTaskSetsOfPrefix(calls: seq<Call>, ts: seq<TaskSet>)
    requires |calls| <= |ts|
    requires forall i :: 0 <= i < |calls| ==> calls[i] == DeleteTaskSet(ts[i])
    ensures DeletedTaskSets(calls) == ts[..|calls|]
  {
    if calls != [] {
      DeletedTaskSetsOfPrefix(calls[1..], ts[1..]);
      assert ts[..|calls|] == [ts[0]] + ts[1..][..|calls| - 1];
    }
  }

  /** Deletions are issued one per task set, in snapshot order, and the run
      succeeds only after every task set was deleted. */
  lemma {:induction false} DeleteRunInOrder(ts: seq<TaskSet>, s: Script)
    ensures |DeleteRun(ts, s).calls| <= |ts|
    ensures forall i :: 0 <= i < |DeleteRun(ts, s).calls| ==> DeleteRun(ts, s).calls[i] == DeleteTaskSet(ts[i])
    ensures DeleteRun(ts, s).ok ==> |DeleteRun(ts, s).calls| == |ts|
  {
    if ts != [] && ts[0] !in s.undeletable {
      DeleteRunInOrder(ts[1..], s);
      var rest := DeleteRun(ts[1..], s).calls;
      var calls := DeleteRun(ts, s).calls;
      assert calls == [DeleteTaskSet(ts[0])] + rest;
      forall i | 1 <= i < |calls|
        ensures calls[i] == DeleteTaskSet(ts[i])
      {
        assert calls[i] == rest[i - 1];
      }
    }
  }

  /** What the deletions of a run remove: a prefix of the snapshot, all of it when the run succeeds. */
  lemma DeleteRunDeletes(ts: seq<TaskSet>, s: Script)
    ensures DeletedTaskSets(DeleteRun(ts, s).calls) <= ts
    ensures DeleteRun(ts, s).ok ==> DeletedTaskSets(DeleteRun(ts, s).calls) == ts
    ensures DeleteRun(ts, s).ok ==> DeleteRun(ts, s).calls == DeleteCalls(ts)
  {
    DeleteRunInOrder(ts, s);
    DeletedTaskSetsOfPrefix(DeleteRun(ts, s).calls, ts);
  }

  // ---------------------------------------------------------------------
  // rollback
  // ---------------------------------------------------------------------

  /** The task sets captured before mutation; a not-found answer means none. */
  function SnapshotOf(s: Script): seq<TaskSet>
  {
    if s.taskSets.Ok? then s.taskSets.value else []
  }

  /** The calls rollback issues against the scripted platform, and its result. */
  function RollbackRun(a: RollbackArgs, shared: map<string, string>, s: Script): Run
  {
    if !a.clientCreated then Run([], false)
    else
      var promote := PromoteRun(a, s);
      if !promote.ok then promote
      else
        var rest := AfterPromotionRun(a, shared, SnapshotOf(s), s);
        Run(promote.calls + rest.calls, rest.ok)
  }

  /** The five steps up to and including promoting the new task set. */
  function PromoteRun(a: RollbackArgs, s: Script): Run
  {
    var register := RegisterTaskDefinition(a.taskDefinition);
    if !s.register.Ok? then Run([register], false)
    else
      var apply := ApplyServiceDefinition(a.serviceDefinition);
      if !s.applyService.Ok? then Run([register, apply], false)
      else
        var service := s.applyService.value;
        var snapshot := GetServiceTaskSets(service);
        if s.taskSets.Failed? then Run([register, apply, snapshot], false)
        else
          var create := CreateTaskSet(service, s.register.value, a.primary, 100);
          if !s.createTaskSet.Ok? then Run([register, apply, snapshot, create], false)
          else
            Run([register, apply, snapshot, create, UpdateServicePrimaryTaskSet(service, s.createTaskSet.value)],
                s.updatePrimary.Ok?)
  }

  /** What rollback does once the new task set is PRIMARY: reset the
      listeners when there is a primary group, then delete the snapshot. */
  function AfterPromotionRun(a: RollbackArgs, shared: map<string, string>, prevTaskSets: seq<TaskSet>, s: Script): Run
  {
    var elb := if a.primary.Some? then ElbRun(a.primary.value, a.canary, shared, s) else Run([], true);
    if !elb.ok then elb
    else
      var deletes := DeleteRun(prevTaskSets, s);
      Run(elb.calls + deletes.calls, deletes.ok)
  }

  method Rollback(a: RollbackArgs, shared: map<string, string>, client: Client) returns (ok: bool)
    modifies client
    ensures client.trace == old(client.trace) + RollbackRun(a, shared, client.script).calls
    ensures ok == RollbackRun(a, shared, client.script).ok
  {
    if !a.clientCreated {
      return false;
    }
    var promoted, prevTaskSets := Promote(a, client);
    if !promoted {
      return false;
    }
    ok := AfterPromotion(a, shared, prevTaskSets, client);
  }

  /** Re-register, re-apply, snapshot, create and promote; the snapshot is
      returned for the deletions. */
  method Promote(a: RollbackArgs, client: Client) returns (ok: bool, prevTaskSets: seq<TaskSet>)
    modifies client
    ensures client.trace == old(client.trace) + PromoteRun(a, client.script).calls
    ensures ok == PromoteRun(a, client.script).ok
    ensures ok ==> prevTaskSets == SnapshotOf(client.script)
  {
    var td := client.RegisterTaskDefinition(a.taskDefinition);
    if !td.Ok? {
      return false, [];
    }
    var service := client.ApplyServiceDefinition(a.serviceDefinition);
    if !service.Ok? {
      return false, [];
    }
    // A not-found answer means the service has no task sets yet.
    var prev := client.GetServiceTaskSets(service.value);
    if prev.Failed? {
      return false, [];
    }
    prevTaskSets := if prev.Ok? then prev.value else [];
    // The new task set runs at full scale, as the service did before the deployment.
    var taskSet := client.CreateTaskSet(service.value, td.value, a.primary, 100);
    if !taskSet.Ok? {
      return false, prevTaskSets;
    }
    var promoted := client.UpdateServicePrimaryTaskSet(service.value, taskSet.value);
    ok := promoted.Ok?;
  }

  /** The tail of rollback once the new task set is PRIMARY: the listener reset, then the deletions. */
  method AfterPromotion(a: RollbackArgs, shared: map<string, string>, prevTaskSets: seq<TaskSet>, client: Client)
    returns (ok: bool)
    modifies client
    ensures client.trace == old(client.trace) + AfterPromotionRun(a, shared, prevTaskSets, client.script).calls
    ensures ok == AfterPromotionRun(a, shared, prevTaskSets, client.script).ok
  {
    // Reset routing in case a progressive pipeline shifted traffic.
    if a.primary.Some? {
      var elbOk := RollbackElb(a.primary.value, a.canary, shared, client);
      if !elbOk {
        return false;
      }
    }
    ghost var elb := if a.primary.Some? then ElbRun(a.primary.value, a.canary, shared, client.script) else Run([], true);
    assert client.trace == old(client.trace) + elb.calls && elb.ok;
    ok := DeletePrevious(prevTaskSets, client);
  }

  /** Deletes the previously active task sets in order; the first failure
      ends the loop and leaves the sets deleted so far deleted. */
  method DeletePrevious(prevTaskSets: seq<TaskSet>, client: Client) returns (ok: bool)
    modifies client
    ensures client.trace == old(client.trace) + DeleteRun(prevTaskSets, client.script).calls
    ensures ok == DeleteRun(prevTaskSets, client.script).ok
  {
    ghost var whole := DeleteRun(prevTaskSets, client.script);
    var i := 0;
    while i < |prevTaskSets|
      invariant 0 <= i <= |prevTaskSets|
      invariant client.trace + DeleteRun(prevTaskSets[i..], client.script).calls == old(client.trace) + whole.calls
      invariant DeleteRun(prevTaskSets[i..], client.script).ok == whole.ok
    {
      assert prevTaskSets[i..][0] == prevTaskSets[i];
      assert prevTaskSets[i..][1..] == prevTaskSets[i + 1..];
      var deleted := client.DeleteTaskSet(prevTaskSets[i]);
      if !deleted {
        return false;
      }
      i := i + 1;
    }
    assert prevTaskSets[i..] == [];
    return true;
  }

  // ---------------------------------------------------------------------
  // ensureRollback and Execute
  // ---------------------------------------------------------------------

  /** The checks and loads before rollback: the arguments it is called with,
      or None when the stage fails first. */
  function Prepare(input: Input): (r: Option<RollbackArgs>)
    ensures r.Some? <==>
      && input.runningCommitHash != ""
      && input.runningSource.Some?
      && input.runningSource.value.ecsSpec.Some?
      && input.platformProvider.Some?
      && input.loadTaskDefinition(input.runningSource.value.ecsSpec.value.taskDefinitionFile, input.runningSource.value).Some?
      && input.loadServiceDefinition(input.runningSource.value.ecsSpec.value.serviceDefinitionFile, input.runningSource.value).Some?
      && input.loadTargetGroups(input.runningSource.value.ecsSpec.value, input.runningSource.value).Some?
    ensures r.Some? ==> r.value.clientCreated == input.createClient(input.platformProvider.value)
    ensures r.Some? ==>
      var ds := input.runningSource.value;
      var spec := ds.ecsSpec.value;
      && input.loadTaskDefinition(spec.taskDefinitionFile, ds) == Some(r.value.taskDefinition)
      && input.loadServiceDefinition(spec.serviceDefinitionFile, ds) == Some(r.value.serviceDefinition)
      && r.value.primary == input.loadTargetGroups(spec, ds).value.primary
      && r.value.canary == input.loadTargetGroups(spec, ds).value.canary
  {
    if input.runningCommitHash == "" then None
    else if input.runningSource.None? then None
    else
      var ds := input.runningSource.value;
      if ds.ecsSpec.None? then None
      else if input.platformProvider.None? then None
      else
        var spec := ds.ecsSpec.value;
        match input.loadTaskDefinition(spec.taskDefinitionFile, ds)
        case None => None
        case Some(td) =>
          match input.loadServiceDefinition(spec.serviceDefinitionFile, ds)
          case None => None
          case Some(sd) =>
            match input.loadTargetGroups(spec, ds)
            case None => None
            case Some(tg) =>
              Some(RollbackArgs(input.createClient(input.platformProvider.value), td, sd, tg.primary, tg.canary))
  }

  function EnsureRun(input: Input, s: Script): Outcome
  {
    match Prepare(input)
    case None => Outcome(StageFailure, [])
    case Some(a) =>
      var run := RollbackRun(a, input.sharedMetadata, s);
      Outcome(if run.ok then StageSuccess else StageFailure, run.calls)
  }

  method EnsureRollback(input: Input, client: Client) returns (status: StageStatus)
    modifies client
    ensures status == EnsureRun(input, client.script).status
    ensures client.trace == old(client.trace) + EnsureRun(input, client.script).calls
  {
    // There is nothing to roll back to on the first deployment.
    if input.runningCommitHash == "" {
      return StageFailure;
    }
    if input.runningSource.None? {
      return StageFailure;
    }
    var ds := input.runningSource.value;
    if ds.ecsSpec.None? {
      return StageFailure;
    }
    var appCfg := ds.ecsSpec.value;
    if input.platformProvider.None? {
      return StageFailure;
    }
    var provider := input.platformProvider.value;
    var taskDefinition := input.loadTaskDefinition(appCfg.taskDefinitionFile, ds);
    if taskDefinition.None? {
      return StageFailure;
    }
    var serviceDefinition := input.loadServiceDefinition(appCfg.serviceDefinitionFile, ds);
    if serviceDefinition.None? {
      return StageFailure;
    }
    var targetGroups := input.loadTargetGroups(appCfg, ds);
    if targetGroups.None? {
      return StageFailure;
    }
    var a := RollbackArgs(input.createClient(provider), taskDefinition.value, serviceDefinition.value,
                          targetGroups.value.primary, targetGroups.value.canary);
    var ok := Rollback(a, input.sharedMetadata, client);
    if !ok {
      return StageFailure;
    }
    return StageSuccess;
  }

  /** The stage as a whole; determine stands for the engine's stage-status rule. */
  function ExecuteRun(input: Input, signal: StopSignalType,
                      determine: (StopSignalType, StageStatus, StageStatus) -> StageStatus, s: Script): Outcome
  {
    if input.stageName != StageRollback then Outcome(StageFailure, [])
    else
      var e := EnsureRun(input, s);
      Outcome(determine(signal, input.stageStatus, e.status), e.calls)
  }

  method Execute(input: Input, signal: StopSignalType,
                 determine: (StopSignalType, StageStatus, StageStatus) -> StageStatus, client: Client)
    returns (status: StageStatus)
    modifies client
    ensures status == ExecuteRun(input, signal, determine, client.script).status
    ensures client.trace == old(client.trace) + ExecuteRun(input, signal, determine, client.script).calls
  {
    var originalStatus := input.stageStatus;
    if input.stageName != StageRollback {
      return StageFailure;
    }
    var raw := EnsureRollback(input, client);
    status := determine(signal, originalStatus, raw);
  }

  // ---------------------------------------------------------------------
  // What a run guarantees
  // ---------------------------------------------------------------------

  /** A stage other than ROLLBACK fails without any platform call, whatever the signal. */
  lemma UnsupportedStageFails(input: Input, signal: StopSignalType,
                              determine: (StopSignalType, StageStatus, StageStatus) -> StageStatus, s: Script)
    requires input.stageName != StageRollback
    ensures ExecuteRun(input, signal, determine, s) == Outcome(StageFailure, [])
  {
  }

  /** The first deployment cannot be rolled back: failure, and no call on any platform. */
  lemma FirstDeploymentFails(input: Input, s: Script)
    requires input.runningCommitHash == ""
    ensures EnsureRun(input, s) == Outcome(StageFailure, [])
  {
  }

  /** An unreadable deploy source, a missing ECS section or provider, or a failed load fails the stage before rollback issues anything. */
  lemma PreparationFailureFails(input: Input, s: Script)
    requires || input.runningSource.None?
             || (input.runningSource.Some? && input.runningSource.value.ecsSpec.None?)
             || input.platformProvider.None?
             || (&& input.runningSource.Some? && input.runningSource.value.ecsSpec.Some?
                 && var ds := input.runningSource.value; var spec := ds.ecsSpec.value;
                    || input.loadTaskDefinition(spec.taskDefinitionFile, ds).None?
                    || input.loadServiceDefinition(spec.serviceDefinitionFile, ds).None?
                    || input.loadTargetGroups(spec, ds).None?)
    ensures EnsureRun(input, s) == Outcome(StageFailure, [])
  {
  }

  /** ensureRollback reports SUCCESS exactly when rollback returned true, FAILURE otherwise. */
  lemma EnsureSucceedsIffRollbackSucceeds(input: Input, s: Script)
    ensures EnsureRun(input, s).status in {StageSuccess, StageFailure}
    ensures EnsureRun(input, s).status == StageSuccess <==>
            Prepare(input).Some? && RollbackRun(Prepare(input).value, input.sharedMetadata, s).ok
  {
  }

  /** The five calls of a rollback that reaches promotion, in order. */
  function Steps(a: RollbackArgs, s: Script): seq<Call>
    requires s.register.Ok? && s.applyService.Ok? && s.createTaskSet.Ok?
  {
    [RegisterTaskDefinition(a.taskDefinition), ApplyServiceDefinition(a.serviceDefinition),
     GetServiceTaskSets(s.applyService.value),
     CreateTaskSet(s.applyService.value, s.register.value, a.primary, 100),
     UpdateServicePrimaryTaskSet(s.applyService.value, s.createTaskSet.value)]
  }

  /** The calls of the listener reset, when there is a primary group. */
  function ElbCalls(a: RollbackArgs, shared: map<string, string>, s: Script): seq<Call>
  {
    if a.primary.Some? then ElbRun(a.primary.value, a.canary, shared, s).calls else []
  }

  // ---------------------------------------------------------------------
  // Abort on first failure
  // ---------------------------------------------------------------------

  ghost predicate AllSucceed(calls: seq<Call>, s: Script)
  {
    forall i :: 0 <= i < |calls| ==> Succeeds(calls[i], s)
  }

  ghost predicate OnlyLastMayFail(calls: seq<Call>, s: Script)
  {
    forall i :: 0 <= i < |calls| - 1 ==> Succeeds(calls[i], s)
  }

  /** No call follows a failing one, and the run succeeds exactly when no call failed. */
  ghost predicate StopsAtFirstFailure(r: Run, s: Script)
  {
    OnlyLastMayFail(r.calls, s) && (r.ok <==> AllSucceed(r.calls, s))
  }

  lemma AllSucceedAppend(a: seq<Call>, b: seq<Call>, s: Script)
    ensures AllSucceed(a + b, s) <==> AllSucceed(a, s) && AllSucceed(b, s)
  {
    if AllSucceed(a + b, s) {
      forall i | 0 <= i < |a| ensures Succeeds(a[i], s) {
        assert (a + b)[i] == a[i];
      }
      forall j | 0 <= j < |b| ensures Succeeds(b[j], s) {
        assert (a + b)[|a| + j] == b[j];
      }
    }
  }

  lemma OnlyLastMayFailAppend(a: seq<Call>, b: seq<Call>, s: Script)
    requires AllSucceed(a, s) && OnlyLastMayFail(b, s)
    ensures OnlyLastMayFail(a + b, s)
  {
    forall i | 0 <= i < |a + b| - 1 ensures Succeeds((a + b)[i], s) {
      if i >= |a| {
        assert (a + b)[i] == b[i - |a|];
      }
    }
  }

  /** A run that issues the calls of a succeeded run first, then those of another run. */
  lemma StopsAtFirstFailureAppend(first: Run, next: Run, s: Script)
    requires first.ok && StopsAtFirstFailure(first, s) && StopsAtFirstFailure(next, s)
    ensures StopsAtFirstFailure(Run(first.calls + next.calls, next.ok), s)
  {
    AllSucceedAppend(first.calls, next.calls, s);
    OnlyLastMayFailAppend(first.calls, next.calls, s);
  }

  lemma {:induction false} DeleteRunStopsAtFirstFailure(ts: seq<TaskSet>, s: Script)
    ensures StopsAtFirstFailure(DeleteRun(ts, s), s)
  {
    if ts != [] && ts[0] !in s.undeletable {
      DeleteRunStopsAtFirstFailure(ts[1..], s);
      StopsAtFirstFailureAppend(Run([DeleteTaskSet(ts[0])], true), DeleteRun(ts[1..], s), s);
    } else if ts != [] {
      assert !Succeeds(DeleteRun(ts, s).calls[0], s);
    }
  }

  lemma ElbRunStopsAtFirstFailure(primary: LoadBalancer, canary: Option<LoadBalancer>, shared: map<string, string>, s: Script)
    ensures StopsAtFirstFailure(ElbRun(primary, canary, shared, s), s)
  {
    var r := ElbRun(primary, canary, shared, s);
    if SelectCanary(canary, shared).UseCanary? {
      assert r.calls[0] == GetListenerArns(primary);
      if s.listenerArns.Ok? {
        assert Succeeds(r.calls[0], s);
        assert Succeeds(r.calls[1], s) == !s.modifyListeners.failed;
      } else {
        assert !Succeeds(r.calls[0], s);
      }
    }
  }

  lemma AfterPromotionStopsAtFirstFailure(a: RollbackArgs, shared: map<string, string>, prev: seq<TaskSet>, s: Script)
    ensures StopsAtFirstFailure(AfterPromotionRun(a, shared, prev, s), s)
  {
    var elb := if a.primary.Some? then ElbRun(a.primary.value, a.canary, shared, s) else Run([], true);
    if a.primary.Some? {
      ElbRunStopsAtFirstFailure(a.primary.value, a.canary, shared, s);
    }
    if elb.ok {
      DeleteRunStopsAtFirstFailure(prev, s);
      StopsAtFirstFailureAppend(elb, DeleteRun(prev, s), s);
    }
  }

  lemma PromoteRunStopsAtFirstFailure(a: RollbackArgs, s: Script)
    ensures StopsAtFirstFailure(PromoteRun(a, s), s)
  {
    var r := PromoteRun(a, s);
    if !s.register.Ok? {
      assert !Succeeds(r.calls[0], s);
    } else if !s.applyService.Ok? {
      assert !Succeeds(r.calls[1], s);
    } else if s.taskSets.Failed? {
      assert !Succeeds(r.calls[2], s);
    } else if !s.createTaskSet.Ok? {
      assert !Succeeds(r.calls[3], s);
    } else {
      assert forall i :: 0 <= i < 4 ==> Succeeds(r.calls[i], s);
      assert Succeeds(r.calls[4], s) == s.updatePrimary.Ok?;
    }
  }

  /** The first failing call ends rollback: every call but the last one issued
      succeeded, and rollback returns true exactly when the client was created
      and every call it issued succeeded. */
  lemma RollbackAbortsOnFirstFailure(a: RollbackArgs, shared: map<string, string>, s: Script)
    ensures !a.clientCreated ==> RollbackRun(a, shared, s) == Run([], false)
    ensures OnlyLastMayFail(RollbackRun(a, shared, s).calls, s)
    ensures RollbackRun(a, shared, s).ok <==> a.clientCreated && AllSucceed(RollbackRun(a, shared, s).calls, s)
  {
    if a.clientCreated {
      var promote := PromoteRun(a, s);
      PromoteRunStopsAtFirstFailure(a, s);
      if promote.ok {
        var rest := AfterPromotionRun(a, shared, SnapshotOf(s), s);
        AfterPromotionStopsAtFirstFailure(a, shared, SnapshotOf(s), s);
        StopsAtFirstFailureAppend(promote, rest, s);
        assert RollbackRun(a, shared, s) == Run(promote.calls + rest.calls, rest.ok);
      }
    }
  }

  // ---------------------------------------------------------------------
  // Which calls, in which order, with which arguments
  // ---------------------------------------------------------------------

  /** The position of each operation in rollback's fixed sequence of steps. */
  function Phase(c: Call): nat
  {
    match c
    case RegisterTaskDefinition(_) => 0
    case ApplyServiceDefinition(_) => 1
    case GetServiceTaskSets(_) => 2
    case CreateTaskSet(_, _, _, _) => 3
    case UpdateServicePrimaryTaskSet(_, _) => 4
    case GetListenerArns(_) => 5
    case ModifyListeners(_, _) => 6
    case DeleteTaskSet(_) => 7
  }

  /** Each step comes strictly after the earlier ones; only deletions repeat. */
  ghost predicate InStepOrder(calls: seq<Call>)
  {
    forall i, j :: 0 <= i < j < |calls| ==>
      Phase(calls[i]) < Phase(calls[j]) || (calls[i].DeleteTaskSet? && calls[j].DeleteTaskSet?)
  }

  lemma InStepOrderAppend(a: seq<Call>, b: seq<Call>, k: nat)
    requires InStepOrder(a) && InStepOrder(b)
    requires forall x :: x in a ==> Phase(x) < k
    requires forall y :: y in b ==> Phase(y) >= k
    ensures InStepOrder(a + b)
  {
    forall i, j | 0 <= i < j < |a + b|
      ensures Phase((a + b)[i]) < Phase((a + b)[j]) || ((a + b)[i].DeleteTaskSet? && (a + b)[j].DeleteTaskSet?)
    {
      if j < |a| {
        assert (a + b)[i] == a[i] && (a + b)[j] == a[j];
      } else if i >= |a| {
        assert (a + b)[i] == b[i - |a|] && (a + b)[j] == b[j - |a|];
      } else {
        assert (a + b)[i] == a[i] && a[i] in a;
        assert (a + b)[j] == b[j - |a|] && b[j - |a|] in b;
      }
    }
  }

  /** The calls of the listener reset: none when it is skipped, otherwise the
      listeners of the primary group, then the 100/0 routing sent to them. */
  lemma ElbRunCalls(primary: LoadBalancer, canary: Option<LoadBalancer>, shared: map<string, string>, s: Script)
    ensures SelectCanary(canary, shared).SkipReset? ==> ElbRun(primary, canary, shared, s) == Run([], true)
    ensures forall c :: c in ElbRun(primary, canary, shared, s).calls ==>
              && SelectCanary(canary, shared).UseCanary?
              && (|| c == GetListenerArns(primary)
                  || (s.listenerArns.Ok? &&
                      c == ModifyListeners(s.listenerArns.value,
                                           ResetRouting(primary.targetGroupArn, SelectCanary(canary, shared).arn))))
    ensures InStepOrder(ElbRun(primary, canary, shared, s).calls)
  {
  }

  /** A deletion run issues nothing but deletions. */
  lemma {:induction false} DeleteRunOnlyDeletes(ts: seq<TaskSet>, s: Script)
    ensures forall c :: c in DeleteRun(ts, s).calls ==> c.DeleteTaskSet?
    ensures InStepOrder(DeleteRun(ts, s).calls)
  {
    if ts != [] && ts[0] !in s.undeletable {
      DeleteRunOnlyDeletes(ts[1..], s);
      var calls := DeleteRun(ts, s).calls;
      assert calls == [DeleteTaskSet(ts[0])] + DeleteRun(ts[1..], s).calls;
      assert forall i :: 0 <= i < |calls| ==> calls[i] in calls;
    }
  }

  /** After promotion only listener calls and deletions happen, and every
      listener call is one of the reset's. */
  lemma AfterPromotionCalls(a: RollbackArgs, shared: map<string, string>, prev: seq<TaskSet>, s: Script)
    ensures forall c :: c in AfterPromotionRun(a, shared, prev, s).calls ==> Phase(c) >= 5
    ensures forall c :: c in AfterPromotionRun(a, shared, prev, s).calls ==> c.DeleteTaskSet? || c in ElbCalls(a, shared, s)
  {
    if a.primary.Some? {
      ElbRunCalls(a.primary.value, a.canary, shared, s);
    }
    DeleteRunOnlyDeletes(prev, s);
  }

  /** After promotion the calls come in step order. */
  lemma AfterPromotionInStepOrder(a: RollbackArgs, shared: map<string, string>, prev: seq<TaskSet>, s: Script)
    ensures InStepOrder(AfterPromotionRun(a, shared, prev, s).calls)
  {
    var elb := if a.primary.Some? then ElbRun(a.primary.value, a.canary, shared, s) else Run([], true);
    if a.primary.Some? {
      ElbRunCalls(a.primary.value, a.canary, shared, s);
    }
    if elb.ok {
      DeleteRunOnlyDeletes(prev, s);
      InStepOrderAppend(elb.calls, DeleteRun(prev, s).calls, 7);
    }
  }

  /** The five steps: calls of the first five phases in order, ending at the
      snapshot when it fails, and a success exactly when every reply is. */
  lemma PromoteRunCalls(a: RollbackArgs, s: Script)
    ensures forall c :: c in PromoteRun(a, s).calls ==> Phase(c) <= 4
    ensures s.taskSets.Failed? ==> forall c :: c in PromoteRun(a, s).calls ==> Phase(c) <= 2
    ensures PromoteRun(a, s).ok <==>
              s.register.Ok? && s.applyService.Ok? && !s.taskSets.Failed? && s.createTaskSet.Ok? && s.updatePrimary.Ok?
    ensures PromoteRun(a, s).ok ==> PromoteRun(a, s).calls == Steps(a, s)
  {
  }

  lemma PromoteRunInStepOrder(a: RollbackArgs, s: Script)
    ensures InStepOrder(PromoteRun(a, s).calls)
  {
  }

  /** The create call uses the re-registered definition, the primary group and
      scale 100; the promote call names the task set that create returned. */
  lemma PromoteRunArguments(a: RollbackArgs, s: Script)
    ensures forall c :: c in PromoteRun(a, s).calls && c.RegisterTaskDefinition? ==>
              c == RegisterTaskDefinition(a.taskDefinition)
    ensures forall c :: c in PromoteRun(a, s).calls && c.ApplyServiceDefinition? ==>
              c == ApplyServiceDefinition(a.serviceDefinition)
    ensures forall c :: c in PromoteRun(a, s).calls && c.CreateTaskSet? ==>
              s.register.Ok? && s.applyService.Ok? &&
              c == CreateTaskSet(s.applyService.value, s.register.value, a.primary, 100)
    ensures forall c :: c in PromoteRun(a, s).calls && c.UpdateServicePrimaryTaskSet? ==>
              s.applyService.Ok? && s.createTaskSet.Ok? &&
              c == UpdateServicePrimaryTaskSet(s.applyService.value, s.createTaskSet.value)
  {
  }

  /** Rollback issues its calls in the fixed step order: re-register, re-apply,
      snapshot, create, promote, listener reset, deletions. No step but the
      deletion is issued twice. */
  lemma RollbackInStepOrder(a: RollbackArgs, shared: map<string, string>, s: Script)
    ensures InStepOrder(RollbackRun(a, shared, s).calls)
  {
    var promote := PromoteRun(a, s);
    PromoteRunCalls(a, s);
    PromoteRunInStepOrder(a, s);
    if a.clientCreated && promote.ok {
      var rest := AfterPromotionRun(a, shared, SnapshotOf(s), s);
      AfterPromotionCalls(a, shared, SnapshotOf(s), s);
      AfterPromotionInStepOrder(a, shared, SnapshotOf(s), s);
      InStepOrderAppend(promote.calls, rest.calls, 5);
      assert RollbackRun(a, shared, s).calls == promote.calls + rest.calls;
    }
  }

  /** A successful tail: the listener reset succeeded and every given task set was deleted, in order. */
  lemma AfterPromotionSucceeded(a: RollbackArgs, shared: map<string, string>, prev: seq<TaskSet>, s: Script)
    requires AfterPromotionRun(a, shared, prev, s).ok
    ensures a.primary.Some? ==> ElbRun(a.primary.value, a.canary, shared, s).ok
    ensures AfterPromotionRun(a, shared, prev, s).calls == ElbCalls(a, shared, s) + DeleteCalls(prev)
  {
    DeleteRunDeletes(prev, s);
  }

  /** A rollback that returns true got every reply it needed and issued exactly
      the five steps, the listener reset (when there is a primary group) and one
      deletion per snapshot task set, in snapshot order. */
  lemma RollbackSucceeded(a: RollbackArgs, shared: map<string, string>, s: Script)
    requires RollbackRun(a, shared, s).ok
    ensures a.clientCreated && s.register.Ok? && s.applyService.Ok? && !s.taskSets.Failed?
    ensures s.createTaskSet.Ok? && s.updatePrimary.Ok?
    ensures a.primary.Some? ==> ElbRun(a.primary.value, a.canary, shared, s).ok
    ensures RollbackRun(a, shared, s).calls == Steps(a, s) + ElbCalls(a, shared, s) + DeleteCalls(SnapshotOf(s))
  {
    var promote := PromoteRun(a, s);
    var rest := AfterPromotionRun(a, shared, SnapshotOf(s), s);
    assert a.clientCreated && promote.ok;
    assert RollbackRun(a, shared, s) == Run(promote.calls + rest.calls, rest.ok);
    PromoteRunCalls(a, s);
    AfterPromotionSucceeded(a, shared, SnapshotOf(s), s);
    var steps, elb, del := Steps(a, s), ElbCalls(a, shared, s), DeleteCalls(SnapshotOf(s));
    assert steps + (elb + del) == steps + elb + del;
  }

  /** After promotion, the task sets deleted are a prefix of the ones given, all of them on success. */
  lemma AfterPromotionDeletes(a: RollbackArgs, shared: map<string, string>, prev: seq<TaskSet>, s: Script)
    ensures DeletedTaskSets(AfterPromotionRun(a, shared, prev, s).calls) <= prev
    ensures AfterPromotionRun(a, shared, prev, s).ok ==> DeletedTaskSets(AfterPromotionRun(a, shared, prev, s).calls) == prev
  {
    var elb := if a.primary.Some? then ElbRun(a.primary.value, a.canary, shared, s) else Run([], true);
    if a.primary.Some? {
      ElbRunCalls(a.primary.value, a.canary, shared, s);
    }
    DeletedTaskSetsNone(elb.calls);
    if elb.ok {
      DeleteRunDeletes(prev, s);
      DeletedTaskSetsAppend(elb.calls, DeleteRun(prev, s).calls);
    }
  }

  /** The task sets rollback deletes are a prefix of the snapshot, all of it
      when rollback returns true; a failed deletion leaves the earlier ones deleted. */
  lemma RollbackDeletesInSnapshotOrder(a: RollbackArgs, shared: map<string, string>, s: Script)
    ensures DeletedTaskSets(RollbackRun(a, shared, s).calls) <= SnapshotOf(s)
    ensures RollbackRun(a, shared, s).ok ==> DeletedTaskSets(RollbackRun(a, shared, s).calls) == SnapshotOf(s)
  {
    var promote := PromoteRun(a, s);
    PromoteRunCalls(a, s);
    DeletedTaskSetsNone(promote.calls);
    if a.clientCreated && promote.ok {
      var rest := AfterPromotionRun(a, shared, SnapshotOf(s), s);
      AfterPromotionDeletes(a, shared, SnapshotOf(s), s);
      DeletedTaskSetsAppend(promote.calls, rest.calls);
      assert RollbackRun(a, shared, s) == Run(promote.calls + rest.calls, rest.ok);
    } else if a.clientCreated {
      assert RollbackRun(a, shared, s) == promote;
    }
  }

  /** A snapshot that finds no task sets is not an error: rollback goes on and
      deletes nothing; any other snapshot error is fatal before the new task set. */
  lemma RollbackSnapshotAnswers(a: RollbackArgs, shared: map<string, string>, s: Script)
    ensures s.taskSets.NotFound? ==> DeletedTaskSets(RollbackRun(a, shared, s).calls) == []
    ensures s.taskSets.NotFound? ==>
              (RollbackRun(a, shared, s).ok <==>
                 && a.clientCreated && s.register.Ok? && s.applyService.Ok? && s.createTaskSet.Ok? && s.updatePrimary.Ok?
                 && (a.primary.Some? ==> ElbRun(a.primary.value, a.canary, shared, s).ok))
    ensures s.taskSets.Failed? ==> !RollbackRun(a, shared, s).ok
    ensures s.taskSets.Failed? ==> forall c :: c in RollbackRun(a, shared, s).calls ==> Phase(c) <= 2
  {
    RollbackDeletesInSnapshotOrder(a, shared, s);
    PromoteRunCalls(a, s);
  }

  /** The new task set uses the re-registered definition, the primary target
      group and scale 100, and it is the task set promoted to PRIMARY. */
  lemma RollbackPromotesNewTaskSet(a: RollbackArgs, shared: map<string, string>, s: Script)
    ensures forall c :: c in RollbackRun(a, shared, s).calls && c.RegisterTaskDefinition? ==>
              c == RegisterTaskDefinition(a.taskDefinition)
    ensures forall c :: c in RollbackRun(a, shared, s).calls && c.ApplyServiceDefinition? ==>
              c == ApplyServiceDefinition(a.serviceDefinition)
    ensures forall c :: c in RollbackRun(a, shared, s).calls && c.CreateTaskSet? ==>
              s.register.Ok? && s.applyService.Ok? &&
              c == CreateTaskSet(s.applyService.value, s.register.value, a.primary, 100)
    ensures forall c :: c in RollbackRun(a, shared, s).calls && c.UpdateServicePrimaryTaskSet? ==>
              s.applyService.Ok? && s.createTaskSet.Ok? &&
              c == UpdateServicePrimaryTaskSet(s.applyService.value, s.createTaskSet.value)
  {
    var promote := PromoteRun(a, s);
    PromoteRunArguments(a, s);
    if a.clientCreated && promote.ok {
      var rest := AfterPromotionRun(a, shared, SnapshotOf(s), s);
      AfterPromotionCalls(a, shared, SnapshotOf(s), s);
      assert RollbackRun(a, shared, s) == Run(promote.calls + rest.calls, rest.ok);
    }
  }

  /** Listener calls happen only with a primary group and a known canary group;
      the routing sent is exactly 100 to the primary and 0 to that canary. */
  lemma RollbackResetsListeners(a: RollbackArgs, shared: map<string, string>, s: Script)
    ensures forall c :: c in RollbackRun(a, shared, s).calls && c.GetListenerArns? ==>
              && a.primary.Some? && SelectCanary(a.canary, shared).UseCanary?
              && c == GetListenerArns(a.primary.value)
    ensures forall c :: c in RollbackRun(a, shared, s).calls && c.ModifyListeners? ==>
              && a.primary.Some? && SelectCanary(a.canary, shared).UseCanary? && s.listenerArns.Ok?
              && c == ModifyListeners(s.listenerArns.value,
                                      ResetRouting(a.primary.value.targetGroupArn, SelectCanary(a.canary, shared).arn))
              && TotalWeight(c.routing) == 100
  {
    var promote := PromoteRun(a, s);
    PromoteRunCalls(a, s);
    if a.clientCreated && promote.ok {
      var rest := AfterPromotionRun(a, shared, SnapshotOf(s), s);
      AfterPromotionCalls(a, shared, SnapshotOf(s), s);
      if a.primary.Some? {
        ElbRunCalls(a.primary.value, a.canary, shared, s);
      }
      assert RollbackRun(a, shared, s) == Run(promote.calls + rest.calls, rest.ok);
    } else if a.clientCreated {
      assert RollbackRun(a, shared, s) == promote;
    }
  }

  /** The stage registers the loaded task definition, applies the loaded service
      definition and routes the new task set and the listener reset through the
      loaded primary target group. */
  lemma EnsureRunUsesLoadedValues(input: Input, s: Script)
    ensures forall c :: c in EnsureRun(input, s).calls ==>
              input.runningSource.Some? && input.runningSource.value.ecsSpec.Some?
    ensures forall c :: c in EnsureRun(input, s).calls && c.RegisterTaskDefinition? ==>
              var ds := input.runningSource.value;
              input.loadTaskDefinition(ds.ecsSpec.value.taskDefinitionFile, ds) == Some(c.taskDefinition)
    ensures forall c :: c in EnsureRun(input, s).calls && c.ApplyServiceDefinition? ==>
              var ds := input.runningSource.value;
              input.loadServiceDefinition(ds.ecsSpec.value.serviceDefinitionFile, ds) == Some(c.serviceDefinition)
    ensures forall c :: c in EnsureRun(input, s).calls && c.CreateTaskSet? ==>
              var ds := input.runningSource.value;
              && input.loadTargetGroups(ds.ecsSpec.value, ds).Some?
              && c.targetGroup == input.loadTargetGroups(ds.ecsSpec.value, ds).value.primary
    ensures forall c :: c in EnsureRun(input, s).calls && c.GetListenerArns? ==>
              var ds := input.runningSource.value;
              && input.loadTargetGroups(ds.ecsSpec.value, ds).Some?
              && input.loadTargetGroups(ds.ecsSpec.value, ds).value.primary == Some(c.listenerTargetGroup)
  {
    if Prepare(input).Some? {
      RollbackPromotesNewTaskSet(Prepare(input).value, input.sharedMetadata, s);
      RollbackResetsListeners(Prepare(input).value, input.sharedMetadata, s);
    }
  }

  // ---------------------------------------------------------------------
  // End-to-end scenarios
  // ---------------------------------------------------------------------

  /** Every reply the platform gives before the listener reset is a success
      (a snapshot that finds nothing included). */
  ghost predicate StepsSucceed(a: RollbackArgs, s: Script)
  {
    && a.clientCreated && s.register.Ok? && s.applyService.Ok? && !s.taskSets.Failed?
    && s.createTaskSet.Ok? && s.updatePrimary.Ok?
  }

  /** Once the steps succeed, rollback issues them, then the whole listener
      reset, and succeeds when the reset and every deletion do. */
  lemma RollbackAfterSteps(a: RollbackArgs, shared: map<string, string>, s: Script)
    requires StepsSucceed(a, s)
    ensures Steps(a, s) + ElbCalls(a, shared, s) <= RollbackRun(a, shared, s).calls
    ensures RollbackRun(a, shared, s).ok ==
            ((a.primary.Some? ==> ElbRun(a.primary.value, a.canary, shared, s).ok) && DeleteRun(SnapshotOf(s), s).ok)
  {
  }

  /** Without a target group, rollback re-registers, re-applies, snapshots,
      creates, promotes and deletes the single prior task set, nothing else. */
  lemma ServiceOnlyRollback(a: RollbackArgs, shared: map<string, string>, s: Script, prior: TaskSet)
    requires StepsSucceed(a, s) && a.primary.None?
    requires s.taskSets == Ok([prior]) && prior !in s.undeletable
    ensures RollbackRun(a, shared, s) == Run(Steps(a, s) + [DeleteTaskSet(prior)], true)
  {
    assert [prior][1..] == [];
    assert DeleteRun([prior], s) == Run([DeleteTaskSet(prior)], true);
  }

  /** With a canary group in the running commit, the reset routes to it and the
      shared metadata plays no part. */
  lemma CanaryFromPriorConfig(a: RollbackArgs, shared: map<string, string>, s: Script)
    requires StepsSucceed(a, s) && a.primary.Some? && a.canary.Some? && s.listenerArns.Ok?
    ensures ModifyListeners(s.listenerArns.value,
                            ResetRouting(a.primary.value.targetGroupArn, a.canary.value.targetGroupArn))
            in RollbackRun(a, shared, s).calls
    ensures RollbackRun(a, shared, s) == RollbackRun(a, map[], s)
  {
    var m := ModifyListeners(s.listenerArns.value,
                             ResetRouting(a.primary.value.targetGroupArn, a.canary.value.targetGroupArn));
    assert ElbCalls(a, shared, s)[1] == m;
    RollbackAfterSteps(a, shared, s);
    var calls := RollbackRun(a, shared, s).calls;
    assert calls[|Steps(a, s)| + 1] == m;
    SelectCanaryIgnoresMetadata(a.canary.value, shared, map[]);
  }

  /** Without a canary group in the running commit, the one recorded in the
      shared metadata is used; when none is recorded the reset is skipped and
      rollback returns true exactly when every snapshot task set is deleted. */
  lemma CanaryFromMetadata(a: RollbackArgs, shared: map<string, string>, s: Script)
    requires StepsSucceed(a, s) && a.primary.Some? && a.canary.None? && s.listenerArns.Ok?
    ensures CanaryTargetGroupArnKey in shared ==>
              ModifyListeners(s.listenerArns.value,
                              ResetRouting(a.primary.value.targetGroupArn, shared[CanaryTargetGroupArnKey]))
              in RollbackRun(a, shared, s).calls
    ensures CanaryTargetGroupArnKey !in shared ==>
              && (forall c :: c in RollbackRun(a, shared, s).calls ==> !c.GetListenerArns? && !c.ModifyListeners?)
              && (RollbackRun(a, shared, s).ok <==> DeleteRun(SnapshotOf(s), s).ok)
  {
    RollbackAfterSteps(a, shared, s);
    if CanaryTargetGroupArnKey in shared {
      var m := ModifyListeners(s.listenerArns.value,
                               ResetRouting(a.primary.value.targetGroupArn, shared[CanaryTargetGroupArnKey]));
      assert ElbCalls(a, shared, s)[1] == m;
      var calls := RollbackRun(a, shared, s).calls;
      assert calls[|Steps(a, s)| + 1] == m;
    } else {
      RollbackResetsListeners(a, shared, s);
    }
  }
}
