# PipeCD piped: ECS rollback, piped configuration and the WAIT plugin

This project models three parts of PipeCD's piped agent and proves properties of them.

- **The ECS ROLLBACK stage** (`ecs_platform.dfy`, `ecs_rollback.dfy`). Rolling back does these steps in order:
  - re-register the running commit's task definition;
  - re-apply its service definition;
  - snapshot the task sets that are active;
  - create a new task set at scale 100 and make it PRIMARY;
  - reset the load balancer listeners to 100/0 when a primary target group is configured;
  - delete the snapshot task sets.

  The first failing call ends the stage. The platform client is the class `EcsPlatform.Client`. It records every call it receives in `trace` and answers from a fixed `Script`. The pure functions `RollbackRun`, `ElbRun`, `DeleteRun`, `EnsureRun` and `ExecuteRun` describe the calls a run makes and its result. The methods `Rollback`, `RollbackElb`, `EnsureRollback` and `Execute` are proved to append exactly those calls to the trace, and the lemmas state what every run guarantees. Go's single `rollback` function is split into four methods to keep each proof small:
  - `Rollback` checks the client;
  - `Promote` runs the five steps up to promotion;
  - `AfterPromotion` runs the listener reset and the deletions;
  - `DeletePrevious` is the deletion loop.
- **The piped configuration** (`piped_config.dfy`):
  - the class `PipedSpec` holds the configured lists;
  - its methods are the lookups, the repository map, and adding the default Kubernetes provider, which changes `cloudProviders` in place;
  - `ShouldConfigureSSHConfig` is a function on `PipedGit`;
  - the type dispatch of `PipedCloudProvider.UnmarshalJSON` is a function from the receiver and the input bytes to the new receiver and the error. JSON decoding itself is a parameter.
- **The WAIT stage plugin** (`wait_plugin.dfy`). It builds the pipeline stages, names the one stage it defines, and executes a stage. The wait itself is a parameter.

`wrappers.dfy` holds the `Option` and `Result` types.

## Model

| member | source | states |
|---|---|---|
| EcsPlatform.Client.RegisterTaskDefinition | pkg/app/piped/executor/ecs/rollback.go:108 | appends one re-register call with the given definition to the trace and answers the scripted reply |
| EcsPlatform.Client.ApplyServiceDefinition | pkg/app/piped/executor/ecs/rollback.go:115 | appends one apply-service call to the trace and answers the scripted reply |
| EcsPlatform.Client.GetServiceTaskSets | pkg/app/piped/executor/ecs/rollback.go:122 | appends one snapshot call to the trace; the reply may be a value, an error or not-found |
| EcsPlatform.Client.CreateTaskSet | pkg/app/piped/executor/ecs/rollback.go:130 | appends one create call with service, definition, target group and scale |
| EcsPlatform.Client.UpdateServicePrimaryTaskSet | pkg/app/piped/executor/ecs/rollback.go:137 | appends one promote call for the given task set |
| EcsPlatform.Client.GetListenerArns | pkg/app/piped/executor/ecs/rollback.go:191 | appends one listener lookup for the primary target group |
| EcsPlatform.Client.ModifyListeners | pkg/app/piped/executor/ecs/rollback.go:197 | appends one modify call with the listeners and routing; the reply carries the modified rules and whether it failed |
| EcsPlatform.Client.DeleteTaskSet | pkg/app/piped/executor/ecs/rollback.go:153 | appends one delete call; it succeeds exactly when the task set is deletable |
| EcsRollback.SelectCanary | pkg/app/piped/executor/ecs/rollback.go:164-178 | the canary comes from the prior config if present, otherwise from the shared metadata key; the reset is skipped iff both are absent |
| EcsRollback.SelectCanaryIgnoresMetadata | pkg/app/piped/executor/ecs/rollback.go:175-178 | when the prior config has a canary group, the metadata does not affect the choice |
| EcsRollback.ResetRouting | pkg/app/piped/executor/ecs/rollback.go:180-189 | the routing is exactly [(primary, 100), (canary, 0)] and its weights sum to 100 |
| EcsRollback.RollbackElb | pkg/app/piped/executor/ecs/rollback.go:163-211 | issues exactly the calls of the listener-reset run and returns its result |
| EcsRollback.DeleteRunInOrder | pkg/app/piped/executor/ecs/rollback.go:151-157 | deletions are issued one per task set, in snapshot order; a successful run deletes every task set |
| EcsRollback.DeleteRunDeletes | pkg/app/piped/executor/ecs/rollback.go:151-157 | the deleted task sets are a prefix of the snapshot, all of it on success, each deleted by exactly one call |
| EcsRollback.DeleteRunStopsAtFirstFailure | pkg/app/piped/executor/ecs/rollback.go:153-156 | no deletion follows a failed one, and the loop succeeds iff every deletion succeeded |
| EcsRollback.Rollback | pkg/app/piped/executor/ecs/rollback.go:97-161 | issues exactly the calls of the rollback run against the client and returns its result |
| EcsRollback.Promote | pkg/app/piped/executor/ecs/rollback.go:105-140 | issues exactly the five steps of the promotion run, returns its result and the snapshot |
| EcsRollback.AfterPromotion | pkg/app/piped/executor/ecs/rollback.go:142-157 | issues exactly the listener reset (when there is a primary group) and then the deletions |
| EcsRollback.DeletePrevious | pkg/app/piped/executor/ecs/rollback.go:151-157 | the deletion loop issues exactly the calls of the deletion run and returns its result |
| EcsRollback.Prepare | pkg/app/piped/executor/ecs/rollback.go:54-88 | rollback gets its arguments iff the commit hash is set, the deploy source is read, the ECS section and the provider exist and all three loaders succeed; those arguments are the loaded task definition, the loaded service definition and the loaded primary and canary groups, in their own places |
| EcsRollback.EnsureRollback | pkg/app/piped/executor/ecs/rollback.go:52-95 | issues exactly the calls of the ensureRollback run and returns its status |
| EcsRollback.Execute | pkg/app/piped/executor/ecs/rollback.go:34-50 | fails an unsupported stage and otherwise returns the stage-status rule applied to the signal, the original status and ensureRollback's status |
| EcsRollback.UnsupportedStageFails | pkg/app/piped/executor/ecs/rollback.go:41-47 | a stage other than ROLLBACK gives STAGE_FAILURE and issues no call |
| EcsRollback.FirstDeploymentFails | pkg/app/piped/executor/ecs/rollback.go:54-57 | an empty running commit hash gives STAGE_FAILURE and issues no call |
| EcsRollback.PreparationFailureFails | pkg/app/piped/executor/ecs/rollback.go:59-88 | an unreadable deploy source, a missing ECS section or provider, or any failed loader gives STAGE_FAILURE with no call |
| EcsRollback.EnsureSucceedsIffRollbackSucceeds | pkg/app/piped/executor/ecs/rollback.go:90-94 | ensureRollback reports only SUCCESS or FAILURE, and SUCCESS iff rollback returned true |
| EcsRollback.ElbRunStopsAtFirstFailure | pkg/app/piped/executor/ecs/rollback.go:191-205 | the listener reset stops at its first failing call and succeeds iff every call succeeded |
| EcsRollback.AfterPromotionStopsAtFirstFailure | pkg/app/piped/executor/ecs/rollback.go:142-157 | after promotion, no call follows a failing one and the result is true iff every call succeeded |
| EcsRollback.PromoteRunStopsAtFirstFailure | pkg/app/piped/executor/ecs/rollback.go:108-140 | the five steps stop at the first failing call and succeed iff every call succeeded |
| EcsRollback.RollbackAbortsOnFirstFailure | pkg/app/piped/executor/ecs/rollback.go:99-160 | without a client nothing is called; every call but the last succeeded; rollback returns true iff the client was created and every call succeeded |
| EcsRollback.ElbRunCalls | pkg/app/piped/executor/ecs/rollback.go:164-205 | a skipped reset issues nothing and succeeds; otherwise only the listener lookup of the primary group and the 100/0 modify call are issued, in that order |
| EcsRollback.DeleteRunOnlyDeletes | pkg/app/piped/executor/ecs/rollback.go:151-157 | the deletion loop issues nothing but deletions |
| EcsRollback.AfterPromotionCalls | pkg/app/piped/executor/ecs/rollback.go:142-157 | after promotion every call is a deletion or one of the listener reset's calls, all of a later step than promotion |
| EcsRollback.AfterPromotionInStepOrder | pkg/app/piped/executor/ecs/rollback.go:142-157 | the listener lookup, then the modify call, then the deletions |
| EcsRollback.PromoteRunCalls | pkg/app/piped/executor/ecs/rollback.go:108-140 | the five steps issue only their own calls, stop at the snapshot when it fails, and succeed iff every reply does, in which case they issue exactly the five calls |
| EcsRollback.PromoteRunInStepOrder | pkg/app/piped/executor/ecs/rollback.go:108-140 | the five steps are issued in order |
| EcsRollback.PromoteRunArguments | pkg/app/piped/executor/ecs/rollback.go:105-140 | register sends the given task definition and apply the given service definition; create uses the re-registered definition, the primary group and scale 100; promote names the created task set |
| EcsRollback.RollbackInStepOrder | pkg/app/piped/executor/ecs/rollback.go:108-157 | the calls follow the order register, apply, snapshot, create, promote, listener reset, deletions; only deletions repeat |
| EcsRollback.AfterPromotionSucceeded | pkg/app/piped/executor/ecs/rollback.go:142-157 | a successful tail completed the listener reset and deleted every given task set, in order |
| EcsRollback.RollbackSucceeded | pkg/app/piped/executor/ecs/rollback.go:108-160 | a successful rollback got every reply it needed and issued exactly the five steps, the listener reset and one deletion per snapshot task set |
| EcsRollback.AfterPromotionDeletes | pkg/app/piped/executor/ecs/rollback.go:142-157 | the tail deletes a prefix of the given task sets, all of them on success |
| EcsRollback.RollbackDeletesInSnapshotOrder | pkg/app/piped/executor/ecs/rollback.go:151-157 | the deleted task sets are a prefix of the snapshot, all of it when rollback returns true |
| EcsRollback.RollbackSnapshotAnswers | pkg/app/piped/executor/ecs/rollback.go:122-127 | not-found means no deletions and success iff the other steps succeed; any other snapshot error means false with no call after the snapshot |
| EcsRollback.RollbackPromotesNewTaskSet | pkg/app/piped/executor/ecs/rollback.go:105-140 | every register and apply call sends the given task and service definitions; the new task set is created with the re-registered definition, the primary group and scale 100, and it is the task set promoted |
| EcsRollback.EnsureRunUsesLoadedValues | pkg/app/piped/executor/ecs/rollback.go:76-147 | as a whole stage, every register call sends the loaded task definition, every apply call the loaded service definition, and every create and listener lookup the loaded primary target group |
| EcsRollback.RollbackResetsListeners | pkg/app/piped/executor/ecs/rollback.go:143-147 | listener calls happen only with a primary group and a chosen canary, and carry the 100/0 routing whose weights sum to 100 |
| EcsRollback.RollbackAfterSteps | pkg/app/piped/executor/ecs/rollback.go:142-160 | once the five steps succeed, the whole listener reset follows them, and the result is true iff the reset and the deletions succeed |
| EcsRollback.ServiceOnlyRollback | pkg/app/piped/executor/ecs/rollback.go:108-160 | without target groups, with one prior task set and every reply successful, rollback issues exactly the five steps and that deletion, and returns true |
| EcsRollback.CanaryFromPriorConfig | pkg/app/piped/executor/ecs/rollback.go:175-189 | a canary group in the prior config is used in the reset, whatever the metadata holds |
| EcsRollback.CanaryFromMetadata | pkg/app/piped/executor/ecs/rollback.go:165-174 | without one, the metadata's canary is used; without that, no listener call is made and the result depends only on the deletions |
| PipedConfig.PipedGit.ShouldConfigureSSHConfig | pkg/config/piped.go:106-120 | true iff the SSH config path, host, host name or SSH key file is non-empty |
| PipedConfig.SSHConfigIgnoresIdentity | pkg/config/piped.go:86-120 | user name, e-mail and access-token file do not change that decision |
| PipedConfig.RepositoryMapKeys | pkg/config/piped.go:58-64 | the map's keys are exactly the configured repository ids |
| PipedConfig.RepositoryMapLastWins | pkg/config/piped.go:60-62 | under each id the map holds the last repository in the list with that id |
| PipedConfig.RepositoryMapUniqueIds | pkg/config/piped.go:58-64 | with unique ids every repository is found under its own id |
| PipedConfig.WithDefaultKubernetes | pkg/config/piped.go:48-55 | the list keeps its existing entries in order and then contains "kubernetes-default"; the default is appended iff no provider of that name exists |
| PipedConfig.WithDefaultKubernetesIdempotent | pkg/config/piped.go:47-55 | enabling the default twice gives the same list as enabling it once |
| PipedConfig.UnmarshalJson | pkg/config/piped.go:148-182 | a failed generic decode leaves the receiver unchanged and returns its error; otherwise name and type are copied, only the matching configuration can change, a known type sets it to the empty configuration or the typed decoder's value and returns that decoder's error, and an unknown type returns the unsupported-type error |
| PipedConfig.UnmarshalFreshProvider | pkg/config/piped.go:157-180 | decoding into a fresh provider sets exactly the configuration of a known type; an unknown type sets none and fails with the unsupported-type error |
| PipedConfig.UnmarshalEmptyConfig | pkg/config/piped.go:158-177 | without a raw config, a known type gets its empty default configuration and no error |
| PipedConfig.UnmarshalErrors | pkg/config/piped.go:151-181 | no error iff the generic decode succeeds, the type is known and the typed decode (if any) succeeds |
| PipedConfig.PipedSpec.Validate | pkg/config/piped.go:43-45 | every configuration is valid |
| PipedConfig.PipedSpec.EnableDefaultKubernetesCloudProvider | pkg/config/piped.go:48-55 | the provider list becomes the list with the default Kubernetes provider enabled; nothing else changes |
| PipedConfig.PipedSpec.GetRepositoryMap | pkg/config/piped.go:58-64 | the map inserts the repositories in list order, and its keys are the configured ids |
| PipedConfig.PipedSpec.GetRepository | pkg/config/piped.go:67-74 | found iff some repository has the id; then it is the first such repository; otherwise the empty repository |
| PipedConfig.PipedSpec.GetProvider | pkg/config/piped.go:77-84 | found iff some analysis provider has the name; then it is the first such provider; otherwise the empty provider |
| WaitPlugin.BuildPipelineSyncStages | pkg/app/pipedv1/plugin/wait/plugin.go:30-46 | never an error; one stage per request, in order, with the request's index and name, no rollback, empty metadata and no manual operation |
| WaitPlugin.BuiltFromUnique | pkg/app/pipedv1/plugin/wait/plugin.go:33-39 | the stage built for a request is determined by that request |
| WaitPlugin.FetchDefinedStages | pkg/app/pipedv1/plugin/wait/plugin.go:57-59 | the defined stages are exactly ["WAIT"], the stage name constant of plugin.go:23-25 |
| WaitPlugin.ExecuteStage | pkg/app/pipedv1/plugin/wait/plugin.go:49-54 | never an error, and the status is the one the wait produced |

## Left out

- Logging is not modelled. This covers every `LogPersister` message and `logModifiedRules`; the rules a failed `ModifyListeners` reports are carried in the reply and never used.
- Contexts, cancellation and the stop signal's channel are not modelled. The signal enters only as its observed type, passed to the stage-status rule.
- Oracles: these helpers are called in `rollback.go` but defined elsewhere in the `ecs` package, and they enter as parameters.
  - The loaders `loadTaskDefinition`, `loadServiceDefinition` and `loadTargetGroups` give a value or nothing.
  - `findPlatformProvider` gives a provider or nothing.
  - Reading the running deploy source gives a source or nothing.
  - Creating a client through the provider registry is a boolean.
  - `applyServiceDefinition` is one client call.
  - `DetermineStageStatus` is a function parameter.
- The AWS SDK and client semantics are not modelled. Each platform operation has one fixed scripted reply, and a deletion fails exactly for the task sets the script names. Resource descriptors keep only the fields the executor passes on.
- When `GetServiceTaskSets` answers not-found, the model takes the snapshot to be empty. The client's own return value in that case is not part of this model.
- `canaryTargetGroupArnKey`'s value is declared outside `rollback.go`, so the model fixes one string for it. No proof depends on the value.
- The stage status, stop signal, manual operation and cloud provider type enumerations are declared outside the modelled files, so the model lists their values.
  - An unrecognised cloud provider type string is kept as `UnknownType(raw)`.
  - The string spelling of the known types is not modelled.
- JSON decoding is not modelled. It is the `JsonDecoder` parameter: one decoder for the generic form and one per configuration type, each starting from that type's empty configuration.
- PipedConfig.UnmarshalJson: the receiver is passed in and returned as a value rather than updated through a pointer. As in the source, configurations of other types already present are kept, and the unsupported-type error names the provider (`p.Name`), not its type.
- `SyncInterval` is an integer count of nanoseconds and is never read by the modelled operations.
- `pkg/app/piped/sourcedecrypter/decrypter_test.go` is not part of this model.
