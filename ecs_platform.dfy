/**
 * The ECS platform client as the rollback executor sees it: opaque resource
 * descriptors, one remote operation per method, and a trace of every call
 * issued. The platform's answers are scripted: each operation has one reply,
 * fixed when the client is created, and deleting a task set fails exactly for
 * the task sets the script names.
 */
module EcsPlatform {
  import opened Wrappers

  type Arn = string

  /** Opaque descriptors: only their identity is used by the executor. */
  datatype TaskDefinition = TaskDefinition(family: string, revision: int)
  datatype Service = Service(name: string)
  datatype TaskSet = TaskSet(arn: Arn)
  datatype LoadBalancer = LoadBalancer(targetGroupArn: Arn)

  /** One (target group, weight) pair of a listener's forward rule. */
  datatype RoutingTrafficEntry = RoutingTrafficEntry(targetGroupArn: Arn, weight: int)
  type RoutingTrafficConfig = seq<RoutingTrafficEntry>

  /** The answer of one remote call: a value, an error, or the distinguished not-found error. */
  datatype Reply<+T> = Ok(value: T) | Failed | NotFound

  /** ModifyListeners answers with the rules it did modify, and whether it failed. */
  datatype ModifyReply = ModifyReply(modifiedRules: seq<Arn>, failed: bool)

  /** The scripted behaviour of the remote platform. */
  datatype Script = Script(
    register: Reply<TaskDefinition>,
    applyService: Reply<Service>,
    taskSets: Reply<seq<TaskSet>>,
    createTaskSet: Reply<TaskSet>,
    updatePrimary: Reply<TaskSet>,
    listenerArns: Reply<seq<Arn>>,
    modifyListeners: ModifyReply,
    undeletable: set<TaskSet>)

  /** One remote operation, with the arguments it was issued with. */
  datatype Call =
    | RegisterTaskDefinition(taskDefinition: TaskDefinition)
    | ApplyServiceDefinition(serviceDefinition: Service)
    | GetServiceTaskSets(service: Service)
    | CreateTaskSet(service: Service, taskDefinition: TaskDefinition, targetGroup: Option<LoadBalancer>, scale: int)
    | UpdateServicePrimaryTaskSet(service: Service, taskSet: TaskSet)
    | GetListenerArns(listenerTargetGroup: LoadBalancer)
    | ModifyListeners(listenerArns: seq<Arn>, routing: RoutingTrafficConfig)
    | DeleteTaskSet(taskSet: TaskSet)

  /** Whether the platform, as scripted, lets the call succeed. A not-found
      answer counts as success only for GetServiceTaskSets. */
  predicate Succeeds(c: Call, s: Script)
  {
    match c
    case RegisterTaskDefinition(_) => s.register.Ok?
    case ApplyServiceDefinition(_) => s.applyService.Ok?
    case GetServiceTaskSets(_) => !s.taskSets.Failed?
    case CreateTaskSet(_, _, _, _) => s.createTaskSet.Ok?
    case UpdateServicePrimaryTaskSet(_, _) => s.updatePrimary.Ok?
    case GetListenerArns(_) => s.listenerArns.Ok?
    case ModifyListeners(_, _) => !s.modifyListeners.failed
    case DeleteTaskSet(t) => t !in s.undeletable
  }

  class Client {
    const script: Script
    /** Every call issued through this client, oldest first. */
    var trace: seq<Call>

    constructor (script: Script)
      ensures this.script == script && trace == []
    {
      this.script := script;
      trace := [];
    }

    method RegisterTaskDefinition(taskDefinition: TaskDefinition) returns (r: Reply<TaskDefinition>)
      modifies this`trace
      ensures trace == old(trace) + [Call.RegisterTaskDefinition(taskDefinition)]
      ensures r == script.register
    {
      trace := trace + [Call.RegisterTaskDefinition(taskDefinition)];
      r := script.register;
    }

    /** Stands for the executor's own applyServiceDefinition helper, whose
        calls into the platform are recorded here as one step. */
    method ApplyServiceDefinition(serviceDefinition: Service) returns (r: Reply<Service>)
      modifies this`trace
      ensures trace == old(trace) + [Call.ApplyServiceDefinition(serviceDefinition)]
      ensures r == script.applyService
    {
      trace := trace + [Call.ApplyServiceDefinition(serviceDefinition)];
      r := script.applyService;
    }

    method GetServiceTaskSets(service: Service) returns (r: Reply<seq<TaskSet>>)
      modifies this`trace
      ensures trace == old(trace) + [Call.GetServiceTaskSets(service)]
      ensures r == script.taskSets
    {
      trace := trace + [Call.GetServiceTaskSets(service)];
      r := script.taskSets;
    }

    method CreateTaskSet(service: Service, taskDefinition: TaskDefinition, targetGroup: Option<LoadBalancer>, scale: int)
      returns (r: Reply<TaskSet>)
      modifies this`trace
      ensures trace == old(trace) + [Call.CreateTaskSet(service, taskDefinition, targetGroup, scale)]
      ensures r == script.createTaskSet
    {
      trace := trace + [Call.CreateTaskSet(service, taskDefinition, targetGroup, scale)];
      r := script.createTaskSet;
    }

    method UpdateServicePrimaryTaskSet(service: Service, taskSet: TaskSet) returns (r: Reply<TaskSet>)
      modifies this`trace
      ensures trace == old(trace) + [Call.UpdateServicePrimaryTaskSet(service, taskSet)]
      ensures r == script.updatePrimary
    {
      trace := trace + [Call.UpdateServicePrimaryTaskSet(service, taskSet)];
      r := script.updatePrimary;
    }

    method GetListenerArns(targetGroup: LoadBalancer) returns (r: Reply<seq<Arn>>)
      modifies this`trace
      ensures trace == old(trace) + [Call.GetListenerArns(targetGroup)]
      ensures r == script.listenerArns
    {
      trace := trace + [Call.GetListenerArns(targetGroup)];
      r := script.listenerArns;
    }

    method ModifyListeners(listenerArns: seq<Arn>, routing: RoutingTrafficConfig) returns (r: ModifyReply)
      modifies this`trace
      ensures trace == old(trace) + [Call.ModifyListeners(listenerArns, routing)]
      ensures r == script.modifyListeners
    {
      trace := trace + [Call.ModifyListeners(listenerArns, routing)];
      r := script.modifyListeners;
    }

    method DeleteTaskSet(taskSet: TaskSet) returns (ok: bool)
      modifies this`trace
      ensures trace == old(trace) + [Call.DeleteTaskSet(taskSet)]
      ensures ok <==> taskSet !in script.undeletable
    {
      trace := trace + [Call.DeleteTaskSet(taskSet)];
      ok := taskSet !in script.undeletable;
    }
  }
}
