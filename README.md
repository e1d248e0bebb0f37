# Shipwright Build: conversion webhook, TaskRun generation and owner references

This project models part of Shipwright Build, the Kubernetes framework that runs container
image builds. It covers four parts:

- **API conversion** between the `shipwright.io/v1alpha1` and `shipwright.io/v1beta1` generations
  of the Build, BuildRun and BuildStrategy custom resources (`build_conversion.dfy`,
  `buildrun_conversion.dfy`, `buildstrategy_conversion.dfy`).
- **The webhook's dispatcher** `convertSHPCR` (`converter.dfy`). It chooses a converter from the object's API
  version, the requested version and the kind, and reports the outcome as a Kubernetes Status. Its
  error messages use the `%q` verb of Go's `fmt` (`format.dfy`).
- **The BuildRun reconciler's generation of a Tekton TaskRun** (`taskrun.dfy`, `placeholders.dfy`, `params.dfy`):
  - the task spec's parameters and steps;
  - the rewriting of the legacy `$(build.output.image)` and `$(build.source.contextDir)` placeholders;
  - the check that every volume mount names a strategy volume;
  - the TaskRun's output image, insecure flag, labels, annotations, timeout and fixed parameters;
  - the merge of Build and BuildRun parameter values (`OverrideParams`).
- **The Build validation that maintains owner references** from BuildRuns to their Build
  according to the Build's `retention.atBuildDeletion` (`ownerreferences.dfy`).

`types.dfy` holds the resource types of both API generations and the Kubernetes types they share.

Modelling conventions:

- A Go pointer becomes an `Option`; a slice becomes a `seq`; a map becomes a `map`.
- A Go receiver that a converter fills in place is an input `dest`/`prior`. The result says which of its
  fields survive.
- A nil dereference or out-of-range index that would make the Go code panic is a `requires` clause.
  The predicates `CanConvert…` and `CanDispatch` collect these.
- Calls into code outside the model are function-valued parameters bundled in a record:
  `Accessors` for the conversion, `Helpers` for the TaskRun, and `setRef`/`update` for the owner
  references.
- The owner-reference validation is a class `OwnerRef`. Its `build` field is the Build whose status
  the validation updates. Its `sent` field records every BuildRun sent to the cluster.
- Each loop of the source is a method with loop invariants. Each method is proved equal to a
  specification function, and the lemmas state the properties of those functions.

Behaviours of the code that the model keeps as they are written:

- **Embedded build spec, v1alpha1 → v1beta1.** `BuildRunSpec.ConvertFrom` first allocates a fresh
  `ReferencedBuild` and then tests that fresh value's `Build` field, so an embedded v1alpha1 build
  spec is never converted. `AlphaEmbeddedSpecLost` states the consequence.
- **Panics.** The converters dereference `GitHub` on every trigger and write `dest.Volumes[i]` into
  a list they never allocate. Both parameter converters write a top-level `configMapValue` or
  `secretValue` through the destination's embedded `*SingleValue`, which they allocate only when
  `value` is set (build_conversion.go lines 249-260 and 290-301), so a Build parameter given only
  as a config map or secret reference cannot be converted in either direction. The model states
  all three as preconditions (`CanConvertAlphaSpec`, `CanConvertAlphaRunSpec`, and
  `CanConvertBetaParam`/`CanConvertAlphaParam`).
- **Strategy volume description.** In both directions the strategy converter sets a volume's
  description to the volume's name, so a BuildStrategy round trip holds exactly when every
  description is the volume's name.
- **Failure details.** The BuildRun status converter keeps the receiver's own `FailureDetails`
  rather than copying the v1alpha1 ones.

## Model

| member | source | states |
|---|---|---|
| BuildConversion.BetaSourceOf | pkg/apis/build/v1beta1/build_conversion.go:71-90 | A v1alpha1 source becomes exactly one v1beta1 variant. It is an OCI artifact (image, prune, credentials as pull secret) iff a bundle container is set. Otherwise it is Git with URL and revision, and a clone secret iff credentials exist. The context directory is kept. |
| BuildConversion.GetAlphaBuildSource | pkg/apis/build/v1beta1/build_conversion.go:333-368 | A bundle container is set iff the source is an OCI artifact. Credentials are set iff the pull or clone secret is non-empty. The URL and revision come from Git only. The context directory is kept. |
| BuildConversion.BetaSourceRoundTrip | pkg/apis/build/v1beta1/build_conversion.go:333-368 | v1beta1 → v1alpha1 → v1beta1 gives back the source exactly when it lies in the representable subset (`BetaSourceRoundTrips`), both directions of the iff. |
| BuildConversion.AlphaSourceRoundTrip | pkg/apis/build/v1beta1/build_conversion.go:71-90 | v1alpha1 → v1beta1 → v1alpha1 gives back the source iff it lies in `AlphaSourceRoundTrips`. |
| BuildConversion.AlphaParamValueOf | pkg/apis/build/v1beta1/build_conversion.go:247-271 | Name kept. A single value is present iff the v1beta1 single value has a `value`. The list of values is converted entry by entry, in order. |
| BuildConversion.BetaParamValueOf | pkg/apis/build/v1beta1/build_conversion.go:288-313 | The same for v1alpha1 → v1beta1. |
| BuildConversion.ConvertParamValueToAlpha | pkg/apis/build/v1beta1/build_conversion.go:247-271 | The loop over the values computes `AlphaParamValueOf`. |
| BuildConversion.ConvertBetaParamValue | pkg/apis/build/v1beta1/build_conversion.go:288-313 | The loop over the values computes `BetaParamValueOf`. |
| BuildConversion.BetaParamValueRoundTrip | pkg/apis/build/v1beta1/build_conversion.go:288-313 | Every convertible parameter value, single-valued or a list of values, survives v1beta1 → v1alpha1 → v1beta1 when each side is read back through the decoder; one with a literal value survives without it. |
| BuildConversion.AlphaParamValueRoundTrip | pkg/apis/build/v1beta1/build_conversion.go:247-271 | Every convertible parameter value survives v1alpha1 → v1beta1 → v1alpha1 when each side is read back through the decoder; one with a literal value survives without it. |
| BuildConversion.SingleValuedParamsDecoded | pkg/apis/build/v1beta1/build_conversion.go:247-313 | A list of parameters that all carry a literal value is already in decoded form after either conversion. |
| BuildConversion.AlphaTriggerWhenOf | pkg/apis/build/v1beta1/build_conversion.go:273-286 | Name, type, events, image and object reference are kept. The branches come from `GetBranches(GitHubWebHookTrigger)`. |
| BuildConversion.BetaTriggerWhenOf | pkg/apis/build/v1beta1/build_conversion.go:315-331 | The same for v1alpha1 → v1beta1. |
| BuildConversion.ConvertTriggerWhenToAlpha | pkg/apis/build/v1beta1/build_conversion.go:273-286 | Computes `AlphaTriggerWhenOf`. |
| BuildConversion.ConvertToBetaTriggers | pkg/apis/build/v1beta1/build_conversion.go:315-331 | Computes `BetaTriggerWhenOf`. |
| BuildConversion.TriggerWhenRoundTrip | pkg/apis/build/v1beta1/build_conversion.go:273-286 | When the branch accessors return the GitHub branches, a trigger survives v1beta1 → v1alpha1 → v1beta1. |
| BuildConversion.BetaOutputOf | pkg/apis/build/v1beta1/build_conversion.go:119-125 | Image, annotations and labels are copied. Credentials become the push secret; without them the receiver's push secret is kept. The receiver's insecure flag is kept. |
| BuildConversion.AlphaOutputOf | pkg/apis/build/v1beta1/build_conversion.go:202-210 | Image, annotations and labels are copied. Insecure becomes `false`. The push secret becomes credentials; without it the receiver's credentials are kept. |
| BuildConversion.BetaRetentionOf | pkg/apis/build/v1beta1/build_conversion.go:134-148 | The four limits are copied when retention is present, else absent. `atBuildDeletion` is never set. |
| BuildConversion.AlphaRetentionOf | pkg/apis/build/v1beta1/build_conversion.go:219-232 | The four limits are copied when retention is present, else absent. |
| BuildConversion.BetaVolumeOf | pkg/apis/build/v1beta1/build_conversion.go:151-158 | Name and volume source are kept. |
| BuildConversion.AlphaVolumeOf | pkg/apis/build/v1beta1/build_conversion.go:235-243 | Name and volume source are kept; there is no description. |
| BuildConversion.AlphaVolumeRoundTrip | pkg/apis/build/v1beta1/build_conversion.go:151-158 | A v1alpha1 volume survives the round trip iff it has no description. |
| BuildConversion.BetaTriggerOf | pkg/apis/build/v1beta1/build_conversion.go:93-102 | Every `when` entry is converted, in order. The secret reference becomes the trigger secret. |
| BuildConversion.AlphaTriggerOf | pkg/apis/build/v1beta1/build_conversion.go:168-178 | Every `when` entry is converted, in order. The trigger secret becomes the secret reference. |
| BuildConversion.BetaParamValuesOf | pkg/apis/build/v1beta1/build_conversion.go:112-116 | Same length; entry i is the conversion of entry i. |
| BuildConversion.AlphaParamValuesOf | pkg/apis/build/v1beta1/build_conversion.go:194-199 | Same length; entry i is the conversion of entry i. |
| BuildConversion.BetaVolumesOf | pkg/apis/build/v1beta1/build_conversion.go:151-158 | Same length; entry i is the conversion of entry i. |
| BuildConversion.AlphaVolumesOf | pkg/apis/build/v1beta1/build_conversion.go:235-243 | Same length; entry i is the conversion of entry i. |
| BuildConversion.BuildSpecConvertFrom | pkg/apis/build/v1beta1/build_conversion.go:69-161 | The field-by-field assignments and append loops compute `BetaBuildSpecOf`. |
| BuildConversion.BuildSpecConvertTo | pkg/apis/build/v1beta1/build_conversion.go:163-245 | The field-by-field assignments and append loops compute `AlphaBuildSpecOf`. |
| BuildConversion.BetaBuildSpecLists | pkg/apis/build/v1beta1/build_conversion.go:69-161 | v1alpha1 → v1beta1 spec: parameters, volumes and trigger entries are converted elementwise. The trigger secret is present iff the secret reference was. Without a trigger the receiver's trigger is kept. |
| BuildConversion.AlphaBuildSpecLists | pkg/apis/build/v1beta1/build_conversion.go:163-245 | v1beta1 → v1alpha1 spec: the same elementwise facts. Builder and Dockerfile are dropped, insecure is `false`, and retention is always present. |
| BuildConversion.TriggerRoundTrip | pkg/apis/build/v1beta1/build_conversion.go:93-102 | When the branch accessors read the GitHub branches, a whole trigger (entries and secret) survives v1beta1 → v1alpha1 → v1beta1. |
| BuildConversion.BetaBuildSpecRoundTrip | pkg/apis/build/v1beta1/build_conversion.go:163-245 | A v1beta1 spec in the representable subset (source, output `Insecure`, retention; any trigger and any parameter shape) survives v1beta1 → v1alpha1 → v1beta1 through the decoder; with only literal parameter values it survives without the decoder. |
| BuildConversion.AlphaBuildOf | pkg/apis/build/v1beta1/build_conversion.go:26-43 | Metadata kept, API version set to v1alpha1, spec converted, status left zero. |
| BuildConversion.BetaBuildOf | pkg/apis/build/v1beta1/build_conversion.go:45-67 | Metadata kept, API version set to v1beta1, spec converted into the receiver, and registered/reason/message copied. |
| BuildConversion.BuildConvertTo | pkg/apis/build/v1beta1/build_conversion.go:26-43 | Computes `AlphaBuildOf`. |
| BuildConversion.BuildConvertFrom | pkg/apis/build/v1beta1/build_conversion.go:45-67 | Computes `BetaBuildOf`. |
| BuildRunConversion.AlphaRunOutputOf | pkg/apis/build/v1beta1/buildrun_conversion.go:64-75 | An output exists iff the v1beta1 one does. Image, annotations and labels are copied. Credentials are present iff a push secret is, and carry its name. |
| BuildRunConversion.AlphaBuildRunSpecOf | pkg/apis/build/v1beta1/buildrun_conversion.go:30-93 | Exactly one of embedded spec and build reference is set, following whether the BuildRun embeds a build. The service account is always present. Parameters, output and volumes are converted; timeout, state, env and retention are copied. |
| BuildRunConversion.BuildRunConvertTo | pkg/apis/build/v1beta1/buildrun_conversion.go:22-103 | Metadata kept, API version set to v1alpha1, spec equal to `AlphaBuildRunSpecOf`, status zero. |
| BuildRunConversion.BetaRunOutputOf | pkg/apis/build/v1beta1/buildrun_conversion.go:190-198 | Always an image, empty when the source has none. The push secret is present iff credentials are. Annotations and labels stay empty. |
| BuildRunConversion.BetaBuildRunSpecOf | pkg/apis/build/v1beta1/buildrun_conversion.go:164-216 | The build is always a name reference without an embedded spec. The service account falls back to the receiver's. The first volumes are overwritten by index and the rest of the receiver's are kept. |
| BuildRunConversion.BuildRunSpecConvertFrom | pkg/apis/build/v1beta1/buildrun_conversion.go:164-216 | The assignments and the loops compute `BetaBuildRunSpecOf`. |
| BuildRunConversion.BetaSourceResultOf | pkg/apis/build/v1beta1/buildrun_conversion.go:122-130 | Name and Git result are kept; the bundle result becomes the OCI artifact result. |
| BuildRunConversion.BetaBuildRunStatusOf | pkg/apis/build/v1beta1/buildrun_conversion.go:122-159 | Sources are projected elementwise. Conditions, output, task run name and times are copied. The build spec is always present. Failure details are the receiver's. |
| BuildRunConversion.BuildRunConvertFrom | pkg/apis/build/v1beta1/buildrun_conversion.go:106-162 | Metadata kept, API version set to v1beta1, spec and status equal to their specification functions. |
| BuildRunConversion.BetaRunSpecRoundTrip | pkg/apis/build/v1beta1/buildrun_conversion.go:164-216 | A referenced-build BuildRun spec whose output has no `Insecure`, annotations or labels survives v1beta1 → v1alpha1 → v1beta1 through the decoder, with parameters of any shape; with only literal parameter values it survives without the decoder. |
| BuildRunConversion.AlphaEmbeddedSpecLost | pkg/apis/build/v1beta1/buildrun_conversion.go:166-175 | An embedded v1alpha1 build spec is lost on v1alpha1 → v1beta1 → v1alpha1; the result refers to a build by name. |
| BuildStrategyConversion.AlphaStepOf | pkg/apis/build/v1beta1/buildstrategy_conversion.go:31-47 | The copied container fields and the security context are kept; every other container field of the v1alpha1 step is unset. |
| BuildStrategyConversion.BetaStepOf | pkg/apis/build/v1beta1/buildstrategy_conversion.go:103-117 | The copied container fields and the security context are kept; the v1alpha1 container's other fields have no place in the result. |
| BuildStrategyConversion.AlphaParameterOf | pkg/apis/build/v1beta1/buildstrategy_conversion.go:53-60 | Name, description, type, default and defaults are kept. |
| BuildStrategyConversion.BetaParameterOf | pkg/apis/build/v1beta1/buildstrategy_conversion.go:123-130 | Name, description, type, default and defaults are kept. |
| BuildStrategyConversion.AlphaStrategyVolumeOf | pkg/apis/build/v1beta1/buildstrategy_conversion.go:68-75 | Overridable, name and source are kept; the description becomes the name. |
| BuildStrategyConversion.BetaStrategyVolumeOf | pkg/apis/build/v1beta1/buildstrategy_conversion.go:138-145 | Overridable, name and source are kept; the description becomes the name. |
| BuildStrategyConversion.AlphaStrategySpecOf | pkg/apis/build/v1beta1/buildstrategy_conversion.go:28-75 | Steps, parameters and volumes are converted elementwise; the security context is copied. |
| BuildStrategyConversion.BetaStrategySpecOf | pkg/apis/build/v1beta1/buildstrategy_conversion.go:100-145 | Steps, parameters and volumes are converted elementwise. The security context is copied when present, otherwise the receiver's is kept. |
| BuildStrategyConversion.BuildStrategyConvertTo | pkg/apis/build/v1beta1/buildstrategy_conversion.go:22-84 | Metadata kept, API version set to v1alpha1, spec equal to `AlphaStrategySpecOf`. |
| BuildStrategyConversion.BuildStrategyConvertFrom | pkg/apis/build/v1beta1/buildstrategy_conversion.go:87-148 | Metadata kept, API version set to v1beta1, spec equal to `BetaStrategySpecOf`. |
| BuildStrategyConversion.BetaStrategySpecRoundTrip | pkg/apis/build/v1beta1/buildstrategy_conversion.go:22-84 | v1beta1 → v1alpha1 → v1beta1 gives back the spec iff every volume description is its name and the security context cannot be replaced by the receiver's. |
| BuildStrategyConversion.AlphaStrategySpecRoundTrip | pkg/apis/build/v1beta1/buildstrategy_conversion.go:87-148 | v1alpha1 → v1beta1 → v1alpha1 gives back the spec iff every volume description is its name, no step sets a container field outside the copied list, and the spec has a security context or the receiver had none. |
| Converter.StatusErrorWithMessage | pkg/webhook/conversion/converter.go:100-105 | A failure status whose message is the formatted text. |
| Converter.UnsupportedKindMessage | pkg/webhook/conversion/converter.go:59 | The unsupported-kind message prints as written. |
| Converter.UnexpectedToMessage | pkg/webhook/conversion/converter.go:62 | The message is the fixed text followed by the quoted target version. |
| Converter.UnexpectedFromMessage | pkg/webhook/conversion/converter.go:95 | The message is the fixed text followed by the quoted source version. |
| Converter.ConvertSHPCR | pkg/webhook/conversion/converter.go:21-98 | It succeeds iff it returns an object. That happens iff the versions are equal, or the pair is v1beta1/v1alpha1 in either order and the kind is Build. Equal versions return the object unchanged. A Build is decoded, converted with the Build-level converters and encoded. Otherwise the status carries the unsupported-kind, unexpected-to or unexpected-from message. |
| Params.LastOverrideSpec | pkg/reconciler/buildrun/resources/params.go:23-32 | An override for a name exists iff the name occurs among the overrides, and it is the last entry with that name. |
| Params.Overridden | pkg/reconciler/buildrun/resources/params.go:23-32 | Overriding a parameter keeps its name. |
| Params.FreshFirstNames | pkg/reconciler/buildrun/resources/params.go:36-46 | The appended parameters carry exactly the override names that were not already present. |
| Params.FreshFirstLength | pkg/reconciler/buildrun/resources/params.go:36-46 | One parameter is appended per new name. |
| Params.FreshFirstDistinct | pkg/reconciler/buildrun/resources/params.go:36-46 | The appended parameters come from the overrides, are new, and have pairwise distinct names. |
| Params.FreshFirstSnoc | pkg/reconciler/buildrun/resources/params.go:36-46 | Scanning one more override appends it iff its name is neither original nor already appended; the first occurrence wins. |
| Params.Merged | pkg/reconciler/buildrun/resources/params.go:22-32 | The override pass keeps the length of the original list. |
| Params.OverrideInPlace | pkg/reconciler/buildrun/resources/params.go:22-32 | After the nested loops the array holds `Merged` of its old contents. |
| Params.AppendMissing | pkg/reconciler/buildrun/resources/params.go:34-46 | The loop appends `FreshFirst` of the overrides. |
| Params.OverrideParams | pkg/reconciler/buildrun/resources/params.go:13-49 | The result is `OverrideParamsSpec`. The caller's array is unchanged on the early returns; otherwise it holds the merged prefix. |
| Params.NoOverrides | pkg/reconciler/buildrun/resources/params.go:14-16 | Without overrides the original list is returned. |
| Params.NoOriginals | pkg/reconciler/buildrun/resources/params.go:18-20 | Without originals the override list is returned. |
| Params.OverrideKeepsPositions | pkg/reconciler/buildrun/resources/params.go:22-32 | Each original position keeps its name. It is unchanged when no override names it, and otherwise equals the last override with that name. |
| Params.MergedNames | pkg/reconciler/buildrun/resources/params.go:22-32 | The override pass keeps the set of names. |
| Params.OverrideAppendsNewNames | pkg/reconciler/buildrun/resources/params.go:34-46 | The tail after the originals is exactly the first occurrence of each new override name, drawn from the overrides. |
| Params.OverrideResultNames | pkg/reconciler/buildrun/resources/params.go:13-49 | The result's names are the union of both lists' names. Its length is the originals' length plus the number of new names. |
| Placeholders.GetStringTransformations | pkg/reconciler/buildrun/resources/taskrun.go:39-55 | Replacing in the map's iteration order gives `Transform`, whatever that order is. |
| Placeholders.TransformRemovesPlaceholders | pkg/reconciler/buildrun/resources/taskrun.go:41-53 | No legacy placeholder is left after the transformation. |
| Placeholders.TransformUnchanged | pkg/reconciler/buildrun/resources/taskrun.go:50-53 | Text without placeholders is left unchanged. |
| Placeholders.TransformIdempotent | pkg/reconciler/buildrun/resources/taskrun.go:39-55 | Transforming twice is transforming once. |
| Placeholders.TransformOrderIrrelevant | pkg/reconciler/buildrun/resources/taskrun.go:50-53 | Applying the two replacements in either order gives the same text. |
| TaskRun.ToVolumeMap | pkg/reconciler/buildrun/resources/taskrun.go:404-410 | The keys are exactly the strategy volume names, each mapped to true. |
| TaskRun.FilterAnnotations | pkg/reconciler/buildrun/resources/taskrun.go:281-287 | Exactly the propagatable keys are kept, each with its value. |
| TaskRun.NotPropagated | pkg/reconciler/buildrun/resources/taskrun.go:396-402 | The kubectl last-applied annotation and keys under the four Shipwright domains are never propagated. |
| TaskRun.EffectiveTimeout | pkg/reconciler/buildrun/resources/taskrun.go:383-392 | The BuildRun's timeout wins over the Build's; absent iff both are absent. |
| TaskRun.OutputImage | pkg/reconciler/buildrun/resources/taskrun.go:223-229 | The BuildRun's output image when it has an output, else the Build's. |
| TaskRun.OutputInsecure | pkg/reconciler/buildrun/resources/taskrun.go:231-236 | The BuildRun's insecure flag when set, else the Build's, else false. |
| TaskRun.FormatNat | pkg/reconciler/buildrun/resources/taskrun.go:253 | Decimal digits without a leading zero. |
| TaskRun.FormatNatRoundTrip | pkg/reconciler/buildrun/resources/taskrun.go:253 | Parsing the printed generation gives it back. |
| TaskRun.FormatIntRoundTrip | pkg/reconciler/buildrun/resources/taskrun.go:259 | A negative generation prints as `-` and its magnitude, which parses back. |
| TaskRun.ParamSpecOf | pkg/reconciler/buildrun/resources/taskrun.go:115-140 | An empty or string type gives a string parameter with the string default. The array type gives an array parameter with the array defaults. Any other type gives neither type nor default. |
| TaskRun.ParamSpecsOf | pkg/reconciler/buildrun/resources/taskrun.go:113-143 | One declaration per strategy parameter, in order. |
| TaskRun.TransformAll | pkg/reconciler/buildrun/resources/taskrun.go:160-168 | Every command and argument part is transformed, in order. |
| TaskRun.MissingMountSpec | pkg/reconciler/buildrun/resources/taskrun.go:194-201 | The check passes iff every mount names a strategy volume; otherwise it reports the first mount that does not. |
| TaskRun.StepFrom | pkg/reconciler/buildrun/resources/taskrun.go:179-190 | A step keeps name and mounts, has its image, command and args transformed, and carries the merged env. |
| TaskRun.AppendStrategyParams | pkg/reconciler/buildrun/resources/taskrun.go:113-143 | The loop appends `ParamSpecsOf` of the strategy parameters. |
| TaskRun.TransformParts | pkg/reconciler/buildrun/resources/taskrun.go:160-168 | The loop computes `TransformAll`. |
| TaskRun.CheckMounts | pkg/reconciler/buildrun/resources/taskrun.go:194-201 | The loop reports `MissingMount`. On success the readonly map records every mount. |
| TaskRun.GenerateStep | pkg/reconciler/buildrun/resources/taskrun.go:158-201 | One iteration of the step loop computes `StepOf` and extends the mount map. |
| TaskRun.GenerateSteps | pkg/reconciler/buildrun/resources/taskrun.go:158-202 | The step loop computes `StepsOf`, and on success the map of all mounts. |
| TaskRun.GenerateTaskSpec | pkg/reconciler/buildrun/resources/taskrun.go:58-212 | Computes `TaskSpecOf`. |
| TaskRun.StepOfSpec | pkg/reconciler/buildrun/resources/taskrun.go:172-201 | A step succeeds iff its env merges and all its mounts name strategy volumes. An env error gives the env-merge message. Otherwise the error is the message for its first unknown mount. |
| TaskRun.StepsOfSucceeds | pkg/reconciler/buildrun/resources/taskrun.go:158-202 | The step loop succeeds iff every step does. |
| TaskRun.StepsOfValues | pkg/reconciler/buildrun/resources/taskrun.go:158-202 | On success there is one Tekton step per strategy step, in order. |
| TaskRun.StepsOfFails | pkg/reconciler/buildrun/resources/taskrun.go:158-202 | On failure the error is that of the first failing step, and all earlier steps succeeded. |
| TaskRun.AllMountsSpec | pkg/reconciler/buildrun/resources/taskrun.go:194-201 | The collected mounts are exactly the mounts of some step. |
| TaskRun.MountMapKeys | pkg/reconciler/buildrun/resources/taskrun.go:200 | The readonly map's keys are the mounted names. |
| TaskRun.TaskSpecMountsCovered | pkg/reconciler/buildrun/resources/taskrun.go:194-201 | In a generated task spec every mounted name is a strategy volume. |
| TaskRun.TaskSpecOfParams | pkg/reconciler/buildrun/resources/taskrun.go:66-143 | The task spec's parameters are the fixed ones, amended with the sources, followed by one declaration per strategy parameter. |
| TaskRun.TaskSpecFixedParamsFirst | pkg/reconciler/buildrun/resources/taskrun.go:66-110 | When amending with the sources keeps the given parameters in front, the generated spec declares first CONTEXT_DIR (default "."), then shp-output-image, shp-output-insecure, shp-source-context and shp-source-root, of string type. |
| TaskRun.StepsRewritten | pkg/reconciler/buildrun/resources/taskrun.go:160-192 | Every generated step is its strategy step with placeholders rewritten and none left. |
| TaskRun.TaskSpecOfSteps | pkg/reconciler/buildrun/resources/taskrun.go:158-192 | The task spec's steps are the source steps followed by one rewritten step per strategy step, in order. |
| TaskRun.TaskSpecOfMissingVolume | pkg/reconciler/buildrun/resources/taskrun.go:194-199 | When the envs merge and some step mounts an unknown volume, generation fails with the mount message for an unknown name. |
| TaskRun.AddResourceLabels | pkg/reconciler/buildrun/resources/taskrun.go:296-298 | Resource labels are added and override labels with the same key; the others are kept. |
| TaskRun.ResolveOutput | pkg/reconciler/buildrun/resources/taskrun.go:223-236 | Computes `OutputImage` and `OutputInsecure`. |
| TaskRun.InitialLabels | pkg/reconciler/buildrun/resources/taskrun.go:250-260 | Computes the BuildRun labels and, for a named Build, the Build labels. |
| TaskRun.TaskRunParams | pkg/reconciler/buildrun/resources/taskrun.go:302-351 | Computes the fixed parameter list. |
| TaskRun.GenerateTaskRun | pkg/reconciler/buildrun/resources/taskrun.go:215-381 | A task spec error is returned as is. Otherwise the draft TaskRun is completed by the parameter-value and image-processing step. |
| TaskRun.TaskRunLabels | pkg/reconciler/buildrun/resources/taskrun.go:250-298 | Unless a resource label overrides it, the BuildRun name and generation are set, and the Build name and generation are set iff the Build is named. Resource labels always win. |
| TaskRun.RunParams | pkg/reconciler/buildrun/resources/taskrun.go:302-351 | Output image, insecure flag and source root are set. With a context directory, CONTEXT_DIR is set and the source context is the joined path; without one, the source context is the source root. |
| TaskRun.DraftTaskRunSpec | pkg/reconciler/buildrun/resources/taskrun.go:238-300 | The draft exists iff the task spec does. It carries generate name, namespace, service account, workspace, the effective timeout, the propagated annotations, the security-context update, and the output image and insecure parameters first. |
| OwnerReferences.OwnerIndex | pkg/validate/ownerreferences.go:94-101 | The index of the first reference with the Build's kind and name, or -1 iff none has them. |
| OwnerReferences.Removed | pkg/validate/ownerreferences.go:105-107 | The entry at the index is dropped; the others keep their order. |
| OwnerReferences.RemovedDropsOne | pkg/validate/ownerreferences.go:105-107 | The removal takes out exactly that one reference (as multisets). |
| OwnerReferences.Disowned | pkg/validate/ownerreferences.go:61-62 | The BuildRun keeps name and namespace and loses its first reference to the Build. |
| OwnerReferences.RemoveOwnerReferenceByIndex | pkg/validate/ownerreferences.go:105-107 | In place on the backing array: the prefix is `Removed`, and the slot after it is unchanged. |
| OwnerReferences.OwnerRef.constructor | pkg/validate/ownerreferences.go:24-28 | Holds the Build; nothing has been sent yet. |
| OwnerReferences.OwnerRef.ValidateBuildOwnerReference | pkg/validate/ownerreferences.go:94-101 | The loop computes `OwnerIndex` for the Build's kind and name. |
| OwnerReferences.OwnerRef.AddOne | pkg/validate/ownerreferences.go:43-54 | One BuildRun of the add pass: updates the status on a failed reference, records the update sent, and returns its error. |
| OwnerReferences.OwnerRef.AddOwnerReferences | pkg/validate/ownerreferences.go:42-55 | The add loop sends what `AddPass` sends, returns its error, and records the last reference error in the Build status. |
| OwnerReferences.OwnerRef.RemoveOne | pkg/validate/ownerreferences.go:59-67 | One BuildRun of the remove pass: records the disowned BuildRun sent, and returns its error. |
| OwnerReferences.OwnerRef.RemoveOwnerReferences | pkg/validate/ownerreferences.go:58-68 | The remove loop sends what `RemovePass` sends and returns its error; the Build is unchanged. |
| OwnerReferences.OwnerRef.ValidatePath | pkg/validate/ownerreferences.go:32-75 | A list error is returned. Without `atBuildDeletion` nothing happens. `true` runs the add pass and `false` runs the remove pass. |
| OwnerReferences.AddPassSent | pkg/validate/ownerreferences.go:42-55 | Every BuildRun sent by the add pass is an unowned listed BuildRun with the controller reference set. |
| OwnerReferences.AddPassComplete | pkg/validate/ownerreferences.go:42-55 | When no update fails, every unowned listed BuildRun is sent with the reference set. |
| OwnerReferences.RemovePassSent | pkg/validate/ownerreferences.go:58-68 | Every BuildRun sent by the remove pass is an owned listed BuildRun, disowned. |
| OwnerReferences.RemovePassComplete | pkg/validate/ownerreferences.go:58-68 | When no update fails, every owned listed BuildRun is sent disowned. |
| OwnerReferences.AddPassStops | pkg/validate/ownerreferences.go:50-52 | The add pass ends at the first failed update: every earlier update succeeded, the failed one is the last sent, and its error is returned. |
| OwnerReferences.RemovePassStops | pkg/validate/ownerreferences.go:63-65 | The remove pass ends at the first failed update in the same way. |

## Left out

- The one effect of `runtime.DefaultUnstructuredConverter.FromUnstructured` that the round trips depend on is modelled: it always allocates an inline `*SingleValue`, so a parameter without a single value reads back with an empty one (`AlphaDecodedParam`, `BetaDecodedParam` and the spec-level `…Decoded…` functions). Otherwise encoding and decoding between unstructured objects and typed resources are uninterpreted functions (`Codec`). Their errors, which the source only logs, are not modelled. `DeepCopy` of the object is the identity on values.
- Logging (`ctxlog`) is not modelled.
- The `%q` verb does not escape special characters (`Format.Quote`). Only `%q` over strings is modelled.
- Go's distinction between a nil and an empty slice or map is not modelled: both are the empty `seq`/`map`.
- Go map iteration order is an input (`keys` in `GetStringTransformations`); the result does not depend on it.
- The strategy-name and branch accessors (`StrategyName`, `GetBranches`) are uninterpreted functions in `Accessors`.
- The ClusterBuildStrategy converters are stubs that convert nothing and return no error; they are not modelled.
- The API domains and label keys of the v1beta1 package are parameters (`ApiConstants`). The values of Tekton's and Shipwright's parameter type names (`"string"`, `"array"`) and of the `SetOwnerReferenceFailed` reason are assumed.
- These helpers of `GenerateTaskSpec`/`GenerateTaskRun` are functions in `Helpers`: `AmendTaskSpecWithSources`, the task results, `env.MergeEnvVars`, `volumes.TaskSpecVolumes`, `steps.UpdateSecurityContext` and `path.Join`.
- The end of `GenerateTaskRun` (taskrun.go lines 355-378) is the `completeTaskRun` function of `Helpers`. That covers the `OverrideParams` call, `FindParameterByName`, `HandleTaskRunParam` and `SetupImageProcessing`. The `OverrideParams` there takes v1beta1 parameter values, while params.go's takes v1alpha1 `Param`s; the latter is modelled in `Params`.
- TaskRun.GenerateTaskSpec: the partially built task spec that the source returns together with an env-merge error is not modelled; the error is.
- TaskRun.DraftTaskRunSpec: the source sets the annotations only when at least one survives the filter. The model always carries the filtered map; nil and empty maps are not distinguished.
- The label selector and namespace of `retrieveBuildRunsfromBuild` are not modelled; the listing is an input `Result`.
- `controllerutil.SetControllerReference` and `client.Update` are the functions `setRef` and `update`. The model records what is sent in the `sent` field instead of a cluster.
- OwnerReferences.OwnerRef.ValidatePath: the default branch of the switch on `atBuildDeletion` (lines 69-71) cannot be reached for a boolean and is not modelled.
- TaskRun.TaskSpecFixedParamsFirst: that `AmendTaskSpecWithSources` keeps the parameters it is given in front is a precondition, because that helper is not part of this model.
- Go pointers are modelled as the values they point to, not as addresses. Where the converters take the address of a field (`&vol.Name` in the strategy volume loops, `&orig.Source.Credentials.Name` for the pull and clone secrets), the model copies the value. For `&vol.Name` inside a `range` loop this assumes Go 1.22's per-iteration loop variables; built with an older toolchain, every description of one conversion would point at the last volume's name. Aliasing between the converted object and its source is not modelled either.
- OwnerReferences.OwnerRef: `ObjectMeta` is opaque, so the Build's name is the separate constant `buildName` rather than a field read from `build`; nothing in the model ties the two.
- Converter.ConvertSHPCR: converter.go lines 50 and 80 call `build.ConvertTo(&buildAlpha)` and `buildBeta.ConvertFrom(&buildAlpha)` with a typed Build, which matches neither the Build-level methods (which take a context and an unstructured object, build_conversion.go lines 26 and 45) nor the spec-level ones. The model reads them as the Build-level conversions: the result keeps the decoded object's ObjectMeta, towards v1beta1 the group version becomes v1beta1, and the registration status is copied. Read as the spec-level conversions, the result would carry a zero ObjectMeta (converter.go copies only TypeMeta, lines 46-49 and 76-79), towards v1beta1 it would keep the `shipwright.io/v1alpha1` group version set at line 79, and towards v1beta1 the status would stay zero.
- The Go panics are preconditions, and the model does not describe the panic itself: a nil trigger `GitHub`; a nil `SingleValue` on the input parameter; the destination's unallocated `SingleValue` when a parameter has a config map or secret reference but no `value`; the index into an unallocated volume list.
