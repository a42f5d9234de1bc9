# ergomake git-compose transformer, modelled in Dafny

This project models ergomake's `gitCompose` transformer. The transformer turns a pull
request of a repository that carries a `.ergomake` folder into a preview
environment. `Prepare` records the environment and clones the branch. It then
checks for the `.ergomake` marker and validates the project. It loads the
docker-compose file with kompose and fixes up every service. `Transform` saves the
services, builds the images and converts the compose project into Kubernetes
objects. It then enriches every workload: namespace, identity labels, security
context, node constraints, restart and pull policies, resource quotas, an
env-var Secret and an image pull Secret.

Files:

- `base.dfy`: `Option`, `Result` and the error values. An `errors.Wrap` context is
  a `Step`, and `Text(step)` holds the exact message the Go code uses. `Wrap`
  keeps a nil error nil. `Joined` is `errors.Join` with the nil errors dropped.
  `Panic` stands for a Go runtime panic.
- `strs.dfy`: the Go string operations the transformer uses (`ToLower` on ASCII,
  `HasPrefix`, `TrimPrefix`, `Index`, `Replace(s, p, "", 1)`,
  `ReplaceAll(s, "_", "")` and `%d`).
- `compose.dfy`: kompose's `ServiceConfig` and the summary `Compose`. It covers
  `getUrl`, `removeUnsupportedVolumes`, `evaluateLabels`, the per-service fix-up of
  `fixComposeObject` and `makeEnvironmentFromServices`.
- `manifests.dfy`: the Kubernetes objects, reduced to the fields the transformer
  reads or writes.
- `enrich.dfy`: `fixOutput` and everything it calls. Each enricher is a pure
  function on a `Deployment` value. An enricher that loops in the source is also a
  method with a loop proved equal to that function. `fixOutput` works in place on
  an `array` of objects.
- `pipeline.dfy`: the `GitCompose` class, holding the transformer's state
  (`prepared`, the environment's status and degraded reason, the kompose object,
  the summary, the checkout path, the cleanup), and `Prepare`, `loadComposeObject`,
  `fail`, `saveServices`, `transformCompose`, `Transform` and `Cleanup` as methods
  on it.

The database, the git client, the file system, kompose, mustache, the env-var and
private-registry providers, uuid and base64 are not part of this model. Their
answers are parameters:

- `LoadIO`, `PrepareIO` and `TransformIO` carry the outcome of each call.
- `Providers` carries the pure functions the transformer calls.

The database row of the environment is represented only by its status and degraded
reason. Service rows are represented by the sequence of rows written.

## Model

| member | source | states |
|---|---|---|
| Base.Wrap | internal/transformer/gitcompose.go:262 | a nil error stays nil, and a non-nil error is wrapped with the step's context |
| Base.NonNil | internal/transformer/gitcompose.go:220 | the errors joined by `fail`: the original error followed by the write error, or only the write error when there is no original error (`errors.Join` drops nil) |
| Strs.Lower | internal/transformer/gitcompose.go:290 | the result has the input's length, has no upper-case ASCII letter, and lowers each character on its own |
| Strs.LowerAppend | internal/transformer/gitcompose.go:290-297 | lowering distributes over concatenation |
| Strs.LowerOfLower | internal/transformer/gitcompose.go:290-297 | a string without upper-case letters is left unchanged |
| Strs.HasPrefix | internal/transformer/gitcompose.go:480 | reference definition of `strings.HasPrefix` (also at lines 337 and 708): the string's first characters are the prefix; `TrimPrefix` and `SupportedVolumes` state what follows from it |
| Strs.TrimPrefix | internal/transformer/gitcompose.go:481 | the prefix followed by the result gives back the label when the label starts with the prefix; otherwise the label is returned unchanged |
| Strs.IndexFrom | internal/transformer/gitcompose.go:313 | the found index is an occurrence at or after the start, with no earlier one; no index means no occurrence |
| Strs.Index | internal/transformer/gitcompose.go:313 | the found index is the first occurrence; no index means `sub` does not occur |
| Strs.RemoveFirst | internal/transformer/gitcompose.go:313 | the first occurrence of the project path is cut out wherever it lies; the build path is unchanged when the project path does not occur |
| Strs.RemoveFirstOfPrefix | internal/transformer/gitcompose.go:313 | when the build path starts with the project path, the project path is stripped |
| Strs.RemoveChar | internal/transformer/gitcompose.go:294 | every `_` of the repository name is removed, and every other character is kept with its multiplicity |
| Strs.RemoveCharAppend | internal/transformer/gitcompose.go:294 | removal distributes over concatenation, so the kept characters stay in their order |
| Strs.NatDecimal | internal/transformer/gitcompose.go:290-296 | a non-empty string of decimal digits that denotes `n`, with no leading zero |
| Strs.Decimal | internal/transformer/gitcompose.go:290-296 | `%d` of the PR number: for `n >= 0` digits denoting `n`, for `n < 0` a minus sign then digits denoting `-n`, never a leading zero; no upper-case letter |
| ComposeModel.GetUrl | internal/transformer/gitcompose.go:286-302 | the URL is the exposure host of the service when some port is bound on the host, and "" otherwise |
| ComposeModel.UrlForPortsExposes | internal/transformer/gitcompose.go:287-302 | the port scan yields the exposure host exactly when some port has a host port, and "" otherwise |
| ComposeModel.GetUrlEmptyIff | internal/transformer/gitcompose.go:286-302 | the URL is empty if and only if no port of the service has a positive host port |
| ComposeModel.GetUrlShape | internal/transformer/gitcompose.go:290-297 | an exposed service's URL is `<name>-<owner>-<repo without _>-<pr>.<domain>`, with every part lowered, and holds no upper-case letter |
| ComposeModel.GetUrlPortOrder | internal/transformer/gitcompose.go:288-299 | reordering a service's ports does not change its URL |
| ComposeModel.HasHostPortByMembership | internal/transformer/gitcompose.go:288-289 | a service has a host-bound port exactly when one is in the multiset of its ports |
| ComposeModel.SupportedVolumes | internal/transformer/gitcompose.go:334-344 | the kept volumes are exactly those whose mount path does not start with `:`, never more than before |
| ComposeModel.SupportedVolumesAppend | internal/transformer/gitcompose.go:336-341 | filtering distributes over concatenation, so the kept volumes keep their order |
| ComposeModel.RemoveUnsupportedVolumes | internal/transformer/gitcompose.go:334-344 | the loop keeps exactly the supported volumes, in order |
| ComposeModel.ArgNameInjective | internal/transformer/gitcompose.go:478-481 | two distinct `replace-arg` labels set two distinct build arguments |
| ComposeModel.ArgNames | internal/transformer/gitcompose.go:477-481 | the build arguments set are exactly the suffixes of the `replace-arg` labels |
| ComposeModel.RenderedArgs | internal/transformer/gitcompose.go:477-498 | one build argument per rendered `replace-arg` label, holding its rendered value |
| ComposeModel.LabelsEvaluated | internal/transformer/gitcompose.go:472-501 | only the build arguments change; each `replace-arg` label's argument holds the rendered template, and every other argument is kept |
| ComposeModel.RenderBuildArgs | internal/transformer/gitcompose.go:477-498 | success exactly when every `replace-arg` template renders; on failure the error wraps the render error of a failing label, naming its variable and value |
| ComposeModel.EvaluateLabels | internal/transformer/gitcompose.go:472-501 | success exactly when every template renders, with the evaluated service; otherwise the wrapped render error of some failing label |
| ComposeModel.Rebuilt | internal/transformer/gitcompose.go:306-314 | reference definition: a built service gets the userland image and its build path without the project path; its properties are stated by `FixedServiceSpec` |
| ComposeModel.WithExposure | internal/transformer/gitcompose.go:316-319 | reference definition: the URL is recorded, with class `nginx` when non-empty; its properties are stated by `FixedServiceSpec` |
| ComposeModel.FixedService | internal/transformer/gitcompose.go:306-326 | reference definition of the fix-up of one service; its properties are stated by `FixedServiceSpec` and `Pipeline.FixService` |
| ComposeModel.FixedServiceSpec | internal/transformer/gitcompose.go:304-329 | a built service gets the userland image `<registry>:<ns>-<name>` and a build path without the project path; the URL is recorded, with class `nginx` when it is non-empty; the build arguments are evaluated; unsupported volumes are dropped; name, ports and labels are kept |
| ComposeModel.MakeEnvironmentFromServices | internal/transformer/gitcompose.go:458-470 | the summary keeps the raw text and holds one entry per service name, the entry of a service carrying that name: an id from the `newId` oracle, the URL, the image and the build; for a map keyed by name, exactly one entry per key |
| Manifests.WithMeta | internal/transformer/gitcompose.go:553-556 | the object's metadata is replaced, and its kind and every other field are kept |
| Manifests.WithSpec | internal/transformer/gitcompose.go:559 | the pod spec is replaced and the deployment and template metadata are kept |
| Manifests.WithContainers | internal/transformer/gitcompose.go:596-597 | only the containers change |
| Enrich.WithNamespace | internal/transformer/gitcompose.go:553-556 | the namespace is set, and nothing else of the object changes |
| Enrich.WithSecurityRestrictions | internal/transformer/gitcompose.go:558-567 | the service-account token is not mounted and the pod runs with the runtime-default seccomp profile; nothing else changes |
| Enrich.WithNodeConstraints | internal/transformer/gitcompose.go:569-583 | the node selector gains `preview.ergomake.dev/role=preview` and keeps the other entries; the preview toleration is appended; nothing else changes |
| Enrich.NodeConstraintsNotIdempotent | internal/transformer/gitcompose.go:577-582 | applying the node constraints twice appends the toleration twice |
| Enrich.WithRestartPolicy | internal/transformer/gitcompose.go:585-592 | a non-empty restart policy becomes `Always` and an empty one stays empty |
| Enrich.PullPolicyFixed | internal/transformer/gitcompose.go:594-599 | every container pulls `IfNotPresent`, and nothing else changes |
| Enrich.PullIfNotPresent | internal/transformer/gitcompose.go:596-598 | each container gets the `IfNotPresent` policy, one for one |
| Enrich.FixPullPolicy | internal/transformer/gitcompose.go:594-599 | the loop yields exactly the pull-policy fix |
| Enrich.PreviewQuota | internal/transformer/gitcompose.go:604-612 | the quota names ephemeral storage and memory |
| Enrich.ResourceLimitsApplied | internal/transformer/gitcompose.go:601-614 | every container's limits and requests are both the preview quota; nothing else changes |
| Enrich.WithQuota | internal/transformer/gitcompose.go:603-613 | each container gets the quota as limits and requests, one for one |
| Enrich.AddResourceLimits | internal/transformer/gitcompose.go:601-614 | the loop yields exactly the quota fix |
| Enrich.IdentityLabels | internal/transformer/gitcompose.go:616-628 | six entries: `app` and `id` are the service's summary id, plus the service name, owner, computed repository and sha |
| Enrich.Labelled | internal/transformer/gitcompose.go:630-652 | the identity labels are merged into the deployment's and the pod's labels and annotations, overriding existing keys; nothing else changes |
| Enrich.MergeLabels | internal/transformer/gitcompose.go:630-634 | the loop's merge keeps every existing key and gives the new entries priority |
| Enrich.AddLabels | internal/transformer/gitcompose.go:616-653 | the workload is labelled with the identity labels of its `io.kompose.service` |
| Enrich.LabelledIdempotent | internal/transformer/gitcompose.go:616-653 | labelling a labelled workload again changes nothing |
| Enrich.MergeTwice | internal/transformer/gitcompose.go:631-633 | merging the same entries twice is merging them once |
| Enrich.SecretData | internal/transformer/gitcompose.go:673-674 | the Secret's keys are exactly the names of the variables |
| Enrich.SecretDataLastWins | internal/transformer/gitcompose.go:673-674 | a variable that no later variable of the same name overrides gives the value of its key |
| Enrich.SecretRefs | internal/transformer/gitcompose.go:672-687 | one reference per variable, in order, each pointing at the Secret under the variable's name |
| Enrich.EnvAppended | internal/transformer/gitcompose.go:689-692 | every container's env is its old env followed by the references; nothing else changes |
| Enrich.EnvExtended | internal/transformer/gitcompose.go:690-692 | each container gets the references appended, one for one |
| Enrich.EnvVarsAdded | internal/transformer/gitcompose.go:655-695 | reference definition of `addEnvVars`; its properties are stated by `EnvVarsAddedSpec` and `AddEnvVars` |
| Enrich.EnvVarsAddedSpec | internal/transformer/gitcompose.go:655-695 | a provider failure is the only failure, wrapped; otherwise the Secret `<id>-env-vars-secret` in the workload's namespace has exactly the variable names as keys, and every container keeps its env and then references each variable in order |
| Enrich.CollectEnvVars | internal/transformer/gitcompose.go:672-687 | the loop builds exactly the Secret data and the reference list |
| Enrich.AppendEnv | internal/transformer/gitcompose.go:689-692 | the loop appends the references to every container |
| Enrich.AddEnvVars | internal/transformer/gitcompose.go:655-695 | the method computes `addEnvVars` as specified by `EnvVarsAddedSpec` |
| Enrich.PolicyApplied | internal/transformer/gitcompose.go:535-540 | reference definition of the six enrichers in source order; its properties are stated by `PolicyAppliedHardened` |
| Enrich.DeploymentFixed | internal/transformer/gitcompose.go:527-551 | reference definition of `fixDeployment`; its properties are stated by `FixDeployment` and `DeploymentFixedHardened` |
| Enrich.FixDeployment | internal/transformer/gitcompose.go:527-551 | other kinds pass through with no extra object; a workload gets the enrichers in order and its env-var Secret |
| Enrich.SecretForImage | internal/transformer/gitcompose.go:697-745 | reference definition of `getSecretForImage`; its properties are stated by `SecretForImageSpec` and `SecretForImageKeeps` |
| Enrich.SecretForImageSpec | internal/transformer/gitcompose.go:697-745 | non-workloads, userland images and unknown registries yield nothing; a provider error is wrapped with the image; found credentials give a dockerconfigjson Secret `<name>-dockerconfig` in the workload's namespace with the encoded auth, and the workload's pull secrets become that one name; a workload without containers panics |
| Enrich.ObjectFixed | internal/transformer/gitcompose.go:507-521 | reference definition of one iteration of `fixOutput`; its properties are stated by `FixObject`, `ObjectFixedOther`, `ObjectFixedDeployment` and `ObjectFixedNamespace` |
| Enrich.Collect | internal/transformer/gitcompose.go:506-524 | reference definition of the accumulation of `fixOutput`: the first error, or the fixed objects and the extra objects in order; its properties are stated by `CollectErrorSticks` and `CollectFails` |
| Enrich.AllFixed | internal/transformer/gitcompose.go:503-525 | reference definition of `fixOutput`; its properties are stated by `FixOutput` and `AllFixedNamespace` |
| Enrich.CollectErrorSticks | internal/transformer/gitcompose.go:509-518 | once an object fails, later objects do not change the result |
| Enrich.CollectFails | internal/transformer/gitcompose.go:509-518 | the first failing object's error is `fixOutput`'s error |
| Enrich.FixObject | internal/transformer/gitcompose.go:507-521 | one loop iteration: namespace, deployment fix and image secret, each failure wrapped with its step |
| Enrich.FixAt | internal/transformer/gitcompose.go:506-522 | one loop iteration on the array: on success the prefix of fixed objects grows by one with the same extras as the reference; on failure the error is that of the whole `fixOutput` |
| Enrich.FixOutput | internal/transformer/gitcompose.go:503-525 | succeeds exactly when every object fixes; then the array holds the fixed objects and the extra objects are returned in order; otherwise the first failure |
| Enrich.PodPoliciesHardened | internal/transformer/gitcompose.go:558-592 | after the pod-level enrichers the pod has no token, the runtime-default profile, the preview role and one more toleration, and a restart policy that is empty or `Always` |
| Enrich.ContainerPoliciesHardened | internal/transformer/gitcompose.go:594-614 | after the container enrichers every container pulls `IfNotPresent` under the preview quota, with its image kept |
| Enrich.PolicyAppliedHardened | internal/transformer/gitcompose.go:535-540 | the six enrichers leave a hardened workload with the same name, namespace and images, merged identity labels and one more toleration |
| Enrich.EnvAppendedKeepsHardened | internal/transformer/gitcompose.go:689-692 | adding env references keeps a workload hardened |
| Enrich.DeploymentFixedHardened | internal/transformer/gitcompose.go:527-551 | a fixed workload is hardened and keeps its name and namespace, and its one extra object is the env-var Secret in that namespace |
| Enrich.SecretForImageKeeps | internal/transformer/gitcompose.go:736-740 | the pull-secret step changes only the pull secrets, and its Secret is in the workload's namespace |
| Enrich.ObjectFixedOther | internal/transformer/gitcompose.go:507-521 | a non-workload is only moved to the namespace and yields no extra object |
| Enrich.ObjectFixedDeployment | internal/transformer/gitcompose.go:507-521 | a fixed workload is hardened and in the namespace, and yields its env-var Secret and possibly a pull Secret, all in the namespace |
| Enrich.ObjectFixedNamespace | internal/transformer/gitcompose.go:507-521 | every fixed object keeps its kind and lands in the namespace, and so does every extra Secret |
| Enrich.CollectPlaced | internal/transformer/gitcompose.go:506-522 | collecting objects that each land in the namespace keeps the count, the kinds and the namespace |
| Enrich.AllFixedNamespace | internal/transformer/gitcompose.go:503-525 | after `fixOutput` every object, in the same number and kinds, and every extra object is in the target namespace |
| Pipeline.TransformResult.Failed | internal/transformer/gitcompose.go:147-149 | a result has failed exactly when it carries failed jobs; `Transform` states which results fail |
| Pipeline.LoadStage | internal/transformer/gitcompose.go:351-399 | loading stops before the fix-up on a loader or clone failure, skips exactly when the marker folder is not found or cannot be read, and loads the compose file the validator named |
| Pipeline.FailResult | internal/transformer/gitcompose.go:217-224 | without a write error the original error is returned; with one, a wrapped join that holds the write error and the original error when there is one |
| Pipeline.ServiceRows | internal/transformer/gitcompose.go:265-277 | the rows are exactly one per summary entry, under the entry's name |
| Pipeline.CollectRows | internal/transformer/gitcompose.go:266-277 | the loop yields one row per summary entry, each name once |
| Pipeline.FixedExceptStep | internal/transformer/gitcompose.go:305-329 | fixing one more service keeps the loop state of `fixComposeObject` |
| Pipeline.FixedExceptDone | internal/transformer/gitcompose.go:329-331 | a finished loop has fixed every service and fails nothing |
| Pipeline.FixedExceptStopped | internal/transformer/gitcompose.go:321-324 | stopping at a service whose labels do not render leaves every service fixed or as it was (the failing service's shared build arguments are under "## Left out") |
| Pipeline.FixService | internal/transformer/gitcompose.go:306-328 | one service is fixed exactly when its labels render |
| Pipeline.FixComposeObject | internal/transformer/gitcompose.go:304-332 | fails exactly when some service's labels do not render, with the `evaluate labels` context; on success every service is fixed up; on failure each is fixed or unchanged (the failing service's shared build arguments are under "## Left out") |
| Pipeline.CauseOfWrap | internal/transformer/gitcompose.go:407-409 | taking the cause of a wrapped error gives back the error that was wrapped, and nil stays nil |
| Pipeline.LoadProject | internal/transformer/gitcompose.go:400-409 | the summary summarizes the loaded services (raw text, one entry per service name with id, URL, image and build), and the fix-up's outcome is that of `fixComposeObject` against that summary |
| Pipeline.GitCompose.constructor | internal/transformer/gitcompose.go:107-139 | a new transformer is unprepared, with no environment row, kompose object, summary or cleanup |
| Pipeline.GitCompose.Fail | internal/transformer/gitcompose.go:217-224 | returns `FailResult`, marks the environment degraded when the write succeeds, and changes nothing else |
| Pipeline.GitCompose.Checkout | internal/transformer/gitcompose.go:351-399 | after a clone the checkout path and cleanup are recorded; each stop of `LoadStage` gives its error, skip or validation result; a load records the compose path |
| Pipeline.GitCompose.LoadComposeObject | internal/transformer/gitcompose.go:351-410 | the result follows `LoadStage`; after a clone the checkout path and cleanup are recorded; on a load the summary (with every entry) and the fixed kompose object are stored, and an error is the fix-up's, wrapped |
| Pipeline.GitCompose.Prepare | internal/transformer/gitcompose.go:157-209 | a create failure aborts with nothing changed; otherwise the degraded reason is cleared, unless an invalid project's reason is saved; a skip, an invalid project or a failed load keeps the summary and kompose object; after a clone the checkout path and cleanup are recorded; a load failure is passed to `fail`; a skip deletes the environment and prepares; a validation error saves the degraded reason or fails; a load stores a summary and fixed services satisfying `ProjectLoaded` and prepares with a pending environment, or fails through `fail` with the fix-up error |
| Pipeline.GitCompose.SaveServices | internal/transformer/gitcompose.go:265-284 | no services write nothing and succeed; otherwise the insert's outcome, appending exactly the summary's rows on success |
| Pipeline.GitCompose.TransformCompose | internal/transformer/gitcompose.go:412-438 | a conversion error is wrapped; otherwise the fixed objects followed by their extra objects, or the wrapped `fixOutput` error |
| Pipeline.GitCompose.Transform | internal/transformer/gitcompose.go:226-263 | refuses before `Prepare`; panics without a summary, or without kompose services when the conversion is reached; a failed save is passed to `fail`, and otherwise the summary's rows are appended; the converter is applied to the kompose services `Prepare` stored; each later failing stage is wrapped and passed to `fail`, which degrades the environment; failed build jobs give a failed result; success gives the namespace's objects and the summary, and marks the environment successful; the configuration, checkout and cleanup are unchanged |
| Pipeline.GitCompose.Cleanup | internal/transformer/gitcompose.go:211-215 | the recorded checkout, if any, is removed, and no other field changes |

## Left out

- Database access, the git clone (`cloneRepo`, `os.MkdirTemp`, `os.Mkdir`), `os.Stat`, `ioutil.ReadFile`, `os.RemoveAll`, the kompose loader and converter, mustache, uuid, base64, `computeRepoAndBuildPath`, `ToMap` and the env-var and private-registry providers are not modelled. Their outcomes are parameters (`LoadIO`, `PrepareIO`, `TransformIO`, `Providers`); the converter is `Providers.convert`, applied to the stored kompose services. `Cleanup` records the removed directory instead of deleting it.
- `validateProject` and `buildImages` are not part of this model. They are parameters: a validation outcome that names the compose file, and a build outcome with its failed jobs.
- `init`, `setInsecureRegistry`, `setUserlandRegistry` and `setDomain` read the process environment. Their results are the `Config` record (userland registry and cluster domain).
- Logging (`fail to delete skipped environment`, `fail to cleanup project path`) is not modelled, because it changes no state.
- Goroutines and contexts are not modelled; the transformer is single-threaded.
- Go map iteration order is arbitrary. The model picks any order, and every contract holds for all orders.
- Pipeline.GitCompose.Transform: a nil summary (Transform after a skip), or a nil kompose object at the conversion, panics in the source. The model returns `Panic` as an error value instead of unwinding the stack.
- Enrich.SecretForImageSpec: likewise, indexing the first container of a workload without containers returns `Panic` instead of unwinding. That value then flows through `AllFixed` and `transformCompose` into `fail`, so the model marks the environment degraded where the source unwinds and never calls `fail`.
- Enrich.Labelled: writing into a nil label or annotation map panics in the source. The model treats a missing map as empty, since kompose always sets labels and annotations on the workloads it produces.
- Strs.Lower: only ASCII letters are lowered; Unicode case mapping is not modelled.
- Pipeline.GitCompose.SaveServices: the `Index` column of a service row is not modelled, because the summary entry's index is not part of this model.
- ComposeModel.LabelsEvaluated: build arguments are values, not pointers; aliasing between services is not modelled.
- Pipeline.FixComposeObject: the loop copies each service but shares its `BuildArgs` map, so when a service's labels fail after some of its `replace-arg` labels rendered, the source's stored service keeps those rendered arguments (when its map was non-nil) although the fix-up returns before writing the service back. The model, and `Pipeline.FixedExceptStopped` with it, state that the failing service is as it was.
- Enrich.FixOutput: when an object fails, the array is left with the objects before it already fixed. Its contents after a failure are not stated, because `transformCompose` and `Transform` discard them.
- The environment row is reduced to its status and degraded reason; the other columns are fixed at creation and are not modelled.
- Resource quantities are plain byte counts (`2Gi` and `1Gi` as 2·2^30 and 2^30); Kubernetes quantity strings are not parsed.
- Error messages are the `Step` context of each wrap. `Text` gives each step's exact message, and `errors.Wrapf` arguments (the image, the compose path, the label's variable and value) are fields of their step.
