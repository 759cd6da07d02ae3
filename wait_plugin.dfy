/**
 * The WAIT stage plugin: it defines one stage, WAIT, turns every requested
 * stage into a pipeline stage with fixed defaults, and reports for an
 * executed stage whatever status the wait itself produced.
 */
module WaitPlugin {
  import opened Wrappers

  const StageWait := "WAIT"

  /** The manual operations a pipeline stage can offer. */
  datatype ManualOperation = ManualOperationUnknown | ManualOperationNone | ManualOperationSkip | ManualOperationApprove

  /** The final status of a stage execution. */
  datatype StageStatus = StageStatusSuccess | StageStatusFailure | StageStatusExited

  /** A stage the pipeline asks the plugin to build. */
  datatype RequestStage = RequestStage(index: int, name: string)

  datatype PipelineStage = PipelineStage(
    index: int,
    name: string,
    rollback: bool,
    metadata: map<string, string>,
    availableOperation: ManualOperation)

  /** The stage built for one requested stage: its index and name, no rollback,
      no metadata and no manual operation. */
  predicate BuiltFrom(stage: PipelineStage, rs: RequestStage)
  {
    && stage.index == rs.index && stage.name == rs.name
    && !stage.rollback && stage.metadata == map[] && stage.availableOperation == ManualOperationNone
  }

  /** Builds one pipeline stage per requested stage, in request order; never fails. */
  method BuildPipelineSyncStages(request: seq<RequestStage>) returns (stages: seq<PipelineStage>, err: Option<string>)
    ensures err.None?
    ensures |stages| == |request|
    ensures forall i :: 0 <= i < |request| ==> BuiltFrom(stages[i], request[i])
  {
    stages := [];
    for i := 0 to |request|
      invariant |stages| == i
      invariant forall k :: 0 <= k < i ==> BuiltFrom(stages[k], request[k])
    {
      var stage := PipelineStage(request[i].index, request[i].name, false, map[], ManualOperationNone);
      stages := stages + [stage];
    }
    err := None;
  }

  /** A built stage is determined by its request: two builds of the same request agree. */
  lemma BuiltFromUnique(s1: PipelineStage, s2: PipelineStage, rs: RequestStage)
    requires BuiltFrom(s1, rs) && BuiltFrom(s2, rs)
    ensures s1 == s2
  {
  }

  /** The only stage this plugin defines. */
  function FetchDefinedStages(): (names: seq<string>)
    ensures names == [StageWait]
  {
    [StageWait]
  }

  /** The input of a stage execution, opaque to this plugin. */
  datatype ExecuteStageInput = ExecuteStageInput(stageName: string, stageConfig: seq<bv8>)

  datatype ExecuteStageResponse = ExecuteStageResponse(status: StageStatus)

  /** Executing a stage reports the status of the wait and never an error. */
  function ExecuteStage(input: ExecuteStageInput, executeWait: ExecuteStageInput -> StageStatus)
    : (r: (ExecuteStageResponse, Option<string>))
    ensures r.1.None?
    ensures r.0.status == executeWait(input)
  {
    var status := executeWait(input);
    (ExecuteStageResponse(status), None)
  }
}
