// The BuildRun reconciler's generation of a Tekton TaskRun
// (pkg/reconciler/buildrun/resources/taskrun.go): the task spec's parameters, steps
// and volume-mount check, and the TaskRun's image, insecure flag, labels,
// annotations, timeout and fixed parameters.
//
// The helpers the generation calls but that are not part of this model (the source
// steps of AmendTaskSpecWithSources, env.MergeEnvVars, volumes.TaskSpecVolumes,
// steps.UpdateSecurityContext, path.Join, and the parameter-value and image-processing
// steps at the end of GenerateTaskRun) are functions passed in a Helpers record. The
// label keys and annotation domains, constants of the v1beta1 API package, are passed
// in an ApiConstants record.

module TaskRun {
  import opened Wrappers
  import opened Kube
  import opened Shared
  import Beta
  import opened Format
  import opened Placeholders

  const PrefixParamsResultsVolumes := "shp"
  const ParamOutputImage := "output-image"
  const ParamOutputInsecure := "output-insecure"
  const ParamSourceRoot := "source-root"
  const ParamSourceContext := "source-context"
  const WorkspaceSource := "source"
  const InputParamContextDir := "CONTEXT_DIR"
  const SourceRoot := "/workspace/source"
  const LastAppliedConfiguration := "kubectl.kubernetes.io/last-applied-configuration"

  /** Tekton's parameter types (pipelineapi.ParamTypeString / ParamTypeArray). */
  const TektonString := "string"
  const TektonArray := "array"
  /** Shipwright's strategy parameter types (ParameterTypeString / ParameterTypeArray). */
  const StrategyString := "string"
  const StrategyArray := "array"

  /** fmt.Sprintf("%s-%s", prefixParamsResultsVolumes, name). */
  function Prefixed(name: string): string {
    PrefixParamsResultsVolumes + "-" + name
  }

  /** The prefixed parameter names. */
  const OutputImageParam := Prefixed(ParamOutputImage)
  const OutputInsecureParam := Prefixed(ParamOutputInsecure)
  const SourceRootParam := Prefixed(ParamSourceRoot)
  const SourceContextParam := Prefixed(ParamSourceContext)

  // ---------------------------------------------------------------------------
  // Tekton types, reduced to the fields the generation sets
  // ---------------------------------------------------------------------------

  /** pipelineapi.ParamValue. */
  datatype TektonValue = TektonValue(valueType: string, stringVal: string, arrayVal: seq<string>)

  /** pipelineapi.ParamSpec. */
  datatype ParamSpec = ParamSpec(name: string, description: string, paramType: string, default: Option<TektonValue>)

  /** pipelineapi.Step. */
  datatype Step = Step(
    name: string,
    image: string,
    imagePullPolicy: PullPolicy,
    command: seq<string>,
    args: seq<string>,
    workingDir: string,
    env: seq<EnvVar>,
    resources: ResourceRequirements,
    volumeMounts: seq<VolumeMount>,
    securityContext: Option<SecurityContext>)

  type TaskResult(==)
  type Volume(==)

  /** pipelineapi.TaskSpec; a workspace declaration is its name. */
  datatype TaskSpec = TaskSpec(
    params: seq<ParamSpec>,
    workspaces: seq<string>,
    results: seq<TaskResult>,
    steps: seq<Step>,
    volumes: seq<Volume>)

  /** pipelineapi.Param. */
  datatype TaskParam = TaskParam(name: string, value: TektonValue)

  /** pipelineapi.TaskRun; a workspace binding is its name (its EmptyDir has no fields set). */
  datatype TaskRun = TaskRun(
    generateName: string,
    namespace: string,
    labels: map<string, string>,
    annotations: map<string, string>,
    serviceAccountName: string,
    taskSpec: TaskSpec,
    workspaces: seq<string>,
    timeout: Option<Duration>,
    params: seq<TaskParam>)

  /** The ObjectMeta fields of a Build or BuildRun that the generation reads. */
  datatype Meta = Meta(name: string, namespace: string, generation: int)

  /** The BuilderStrategy interface: what a BuildStrategy or ClusterBuildStrategy offers. */
  datatype StrategyView = StrategyView(
    name: string,
    steps: seq<Beta.Step>,
    parameters: seq<Beta.Parameter>,
    volumes: seq<Beta.BuildStrategyVolume>,
    annotations: map<string, string>,
    resourceLabels: map<string, string>,
    securityContext: Option<BuildStrategySecurityContext>)

  /** Constants of the v1beta1 API package. */
  datatype ApiConstants = ApiConstants(
    labelBuildRun: string,
    labelBuildRunGeneration: string,
    labelBuild: string,
    labelBuildGeneration: string,
    clusterBuildStrategyDomain: string,
    buildStrategyDomain: string,
    buildDomain: string,
    buildRunDomain: string)

  /** The calls out of the generation. */
  datatype Helpers = Helpers(
    // getTaskSpecResults() followed by getFailureDetailsTaskSpecResults()
    taskResults: seq<TaskResult>,
    // AmendTaskSpecWithSources, for the Build and BuildRun at hand
    amendWithSources: TaskSpec -> TaskSpec,
    // env.MergeEnvVars(new, into, overwrite)
    mergeEnvVars: (seq<EnvVar>, seq<EnvVar>, bool) -> Result<seq<EnvVar>, string>,
    // volumes.TaskSpecVolumes(volumeMounts, strategy volumes, build volumes, buildRun volumes)
    taskSpecVolumes: (map<string, bool>, seq<Beta.BuildStrategyVolume>, seq<Beta.BuildVolume>, seq<Beta.BuildVolume>)
      -> Result<seq<Volume>, string>,
    // build.Spec.StrategyName()
    strategyName: string,
    // steps.UpdateSecurityContext, which updates the task spec and the annotations in place
    updateSecurityContext: (TaskSpec, map<string, string>, seq<Beta.Step>, Option<BuildStrategySecurityContext>)
      -> (TaskSpec, map<string, string>),
    // path.Join
    pathJoin: (string, string) -> string,
    // the parameter values (OverrideParams, FindParameterByName, HandleTaskRunParam) and
    // SetupImageProcessing, which end GenerateTaskRun
    completeTaskRun: TaskRun -> Result<TaskRun, string>)

  // ---------------------------------------------------------------------------
  // Small helpers of the generation
  // ---------------------------------------------------------------------------

  /** The names of the strategy's volumes. */
  function VolumeNames(vols: seq<Beta.BuildStrategyVolume>): set<string> {
    set v | v in vols :: v.name
  }

  /** toVolumeMap: a key for every strategy volume name, each mapped to true. */
  method ToVolumeMap(strategyVolumes: seq<Beta.BuildStrategyVolume>) returns (res: map<string, bool>)
    ensures res.Keys == VolumeNames(strategyVolumes)
    ensures forall n :: n in res ==> res[n]
  {
    res := map[];
    for i := 0 to |strategyVolumes|
      invariant res.Keys == VolumeNames(strategyVolumes[..i])
      invariant forall n :: n in res ==> res[n]
    {
      assert strategyVolumes[..i + 1] == strategyVolumes[..i] + [strategyVolumes[i]];
      res := res[strategyVolumes[i].name := true];
    }
    assert strategyVolumes[..|strategyVolumes|] == strategyVolumes;
  }

  /** isPropagatableAnnotation. */
  predicate IsPropagatableAnnotation(c: ApiConstants, key: string) {
    && key != LastAppliedConfiguration
    && !StartsWith(key, c.clusterBuildStrategyDomain + "/")
    && !StartsWith(key, c.buildStrategyDomain + "/")
    && !StartsWith(key, c.buildDomain + "/")
    && !StartsWith(key, c.buildRunDomain + "/")
  }

  /** The annotations that survive the filter. */
  function PropagatedAnnotations(c: ApiConstants, annotations: map<string, string>): map<string, string> {
    map k | k in annotations && IsPropagatableAnnotation(c, k) :: annotations[k]
  }

  /**
   * The filter loop of GenerateTaskRun over the strategy's annotations: exactly the
   * propagatable keys are kept, each with its value.
   */
  method FilterAnnotations(c: ApiConstants, annotations: map<string, string>) returns (r: map<string, string>)
    ensures r.Keys <= annotations.Keys
    ensures forall k :: k in annotations ==> (k in r <==> IsPropagatableAnnotation(c, k))
    ensures forall k :: k in r ==> r[k] == annotations[k]
    ensures r == PropagatedAnnotations(c, annotations)
  {
    r := map[];
    var todo := annotations.Keys;
    while todo != {}
      invariant todo <= annotations.Keys
      invariant r == PropagatedAnnotations(c, annotations - todo)
      decreases todo
    {
      var key :| key in todo;
      if IsPropagatableAnnotation(c, key) {
        r := r[key := annotations[key]];
      }
      todo := todo - {key};
    }
    assert annotations - {} == annotations;
  }

  /** The last-applied-configuration annotation and the four Shipwright domains are never propagated. */
  lemma NotPropagated(c: ApiConstants, annotations: map<string, string>, key: string)
    requires key == LastAppliedConfiguration
      || StartsWith(key, c.clusterBuildStrategyDomain + "/") || StartsWith(key, c.buildStrategyDomain + "/")
      || StartsWith(key, c.buildDomain + "/") || StartsWith(key, c.buildRunDomain + "/")
    ensures key !in PropagatedAnnotations(c, annotations)
  {
  }

  /** effectiveTimeout: the BuildRun's timeout if set, else the Build's, else none. */
  function EffectiveTimeout(build: Beta.BuildSpec, buildRun: Beta.BuildRunSpec): (r: Option<Duration>)
    ensures buildRun.timeout.Some? ==> r == buildRun.timeout
    ensures buildRun.timeout.None? ==> r == build.timeout
    ensures r.Some? <==> buildRun.timeout.Some? || build.timeout.Some?
  {
    if buildRun.timeout.Some? then buildRun.timeout
    else if build.timeout.Some? then build.timeout
    else None
  }

  /** The output image: the BuildRun's output, when it has one, wins outright, even with an empty image. */
  function OutputImage(build: Beta.BuildSpec, buildRun: Beta.BuildRunSpec): (image: string)
    ensures buildRun.output.Some? ==> image == buildRun.output.value.image
    ensures buildRun.output.None? ==> image == build.output.image
  {
    if buildRun.output.Some? then buildRun.output.value.image else build.output.image
  }

  /**
   * The insecure flag: the BuildRun's, when its output sets one; else the Build's; else
   * false. A BuildRun output without a flag falls back to the Build's flag although it
   * replaces the Build's image.
   */
  function OutputInsecure(build: Beta.BuildSpec, buildRun: Beta.BuildRunSpec): (insecure: bool)
    ensures buildRun.output.Some? && buildRun.output.value.insecure.Some? ==>
      insecure == buildRun.output.value.insecure.value
    ensures (buildRun.output.None? || buildRun.output.value.insecure.None?) ==>
      insecure == (build.output.insecure == Some(true))
  {
    if buildRun.output.Some? && buildRun.output.value.insecure.Some? then buildRun.output.value.insecure.value
    else if build.output.insecure.Some? then build.output.insecure.value
    else false
  }

  /** strconv.FormatBool. */
  function FormatBool(b: bool): string {
    if b then "true" else "false"
  }

  function Digit(d: nat): char
    requires d < 10
  {
    "0123456789"[d]
  }

  /** Decimal digits of a natural number, without leading zeros. */
  function FormatNat(n: nat): (s: string)
    ensures |s| > 0 && (|s| > 1 ==> s[0] != '0')
    ensures forall i :: 0 <= i < |s| ==> '0' <= s[i] <= '9'
  {
    if n < 10 then [Digit(n)] else FormatNat(n / 10) + [Digit(n % 10)]
  }

  /** strconv.FormatInt(n, 10). */
  function FormatInt(n: int): string {
    if n < 0 then "-" + FormatNat(-n) else FormatNat(n)
  }

  /** The value of a string of decimal digits. */
  function ParseNat(s: string): nat
    requires forall i :: 0 <= i < |s| ==> '0' <= s[i] <= '9'
  {
    if |s| == 0 then 0 else ParseNat(s[..|s| - 1]) * 10 + (s[|s| - 1] - '0') as nat
  }

  /** The decimal labels read back as the generation they were written from. */
  lemma {:induction false} FormatNatRoundTrip(n: nat)
    ensures ParseNat(FormatNat(n)) == n
  {
    if n >= 10 {
      var s := FormatNat(n);
      assert s[..|s| - 1] == FormatNat(n / 10);
      FormatNatRoundTrip(n / 10);
    }
  }

  lemma FormatIntRoundTrip(n: int)
    ensures n >= 0 ==> ParseNat(FormatInt(n)) == n
    ensures n < 0 ==> FormatInt(n)[0] == '-' && ParseNat(FormatInt(n)[1..]) == -n
  {
    if n >= 0 {
      FormatNatRoundTrip(n);
    } else {
      var digits := FormatNat(-n);
      FormatNatRoundTrip(-n);
      assert FormatInt(n) == "-" + digits;
      assert ("-" + digits)[1..] == digits;
    }
  }

  // ---------------------------------------------------------------------------
  // GenerateTaskSpec
  // ---------------------------------------------------------------------------

  /** The five parameters every generated task declares, in order. */
  const FixedParams: seq<ParamSpec> := [
    ParamSpec(InputParamContextDir, "The root of the code", "", Some(TektonValue(TektonString, ".", []))),
    ParamSpec(OutputImageParam, "The URL of the image that the build produces", TektonString, None),
    ParamSpec(OutputInsecureParam,
      "A flag indicating that the output image is on an insecure container registry", TektonString, None),
    ParamSpec(SourceContextParam, "The context directory inside the source directory", TektonString, None),
    ParamSpec(SourceRootParam, "The source directory", TektonString, None)]

  /** The task spec before the sources amend it. */
  function InitialTaskSpec(results: seq<TaskResult>): TaskSpec {
    TaskSpec(FixedParams, [WorkspaceSource], results, [], [])
  }

  /** The Tekton parameter declared for one strategy parameter. */
  function ParamSpecOf(d: Beta.Parameter): (p: ParamSpec)
    ensures p.name == d.name && p.description == d.description
    ensures (d.paramType == "" || d.paramType == StrategyString) ==>
      && p.paramType == TektonString
      && (p.default.Some? <==> d.default.Some?)
      && (d.default.Some? ==> p.default == Some(TektonValue(TektonString, d.default.value, [])))
    ensures d.paramType == StrategyArray ==>
      && p.paramType == TektonArray
      && (p.default.Some? <==> d.defaults.Some?)
      && (d.defaults.Some? ==> p.default == Some(TektonValue(TektonArray, "", d.defaults.value)))
    ensures d.paramType !in {"", StrategyString, StrategyArray} ==> p.paramType == "" && p.default.None?
  {
    if d.paramType == "" || d.paramType == StrategyString then
      ParamSpec(d.name, d.description, TektonString,
        if d.default.Some? then Some(TektonValue(TektonString, d.default.value, [])) else None)
    else if d.paramType == StrategyArray then
      ParamSpec(d.name, d.description, TektonArray,
        if d.defaults.Some? then Some(TektonValue(TektonArray, "", d.defaults.value)) else None)
    else ParamSpec(d.name, d.description, "", None)
  }

  function ParamSpecsOf(defs: seq<Beta.Parameter>): (r: seq<ParamSpec>)
    ensures |r| == |defs| && forall i :: 0 <= i < |defs| ==> r[i] == ParamSpecOf(defs[i])
  {
    seq(|defs|, i requires 0 <= i < |defs| => ParamSpecOf(defs[i]))
  }

  function TransformAll(parts: seq<string>): (r: seq<string>)
    ensures |r| == |parts| && forall i :: 0 <= i < |parts| ==> r[i] == Transform(parts[i])
  {
    seq(|parts|, i requires 0 <= i < |parts| => Transform(parts[i]))
  }

  /** The first volume mount whose name is not among `names`. */
  function MissingMount(mounts: seq<VolumeMount>, names: set<string>): Option<string>
  {
    if |mounts| == 0 then None
    else if mounts[0].name !in names then Some(mounts[0].name)
    else MissingMount(mounts[1..], names)
  }

  lemma {:induction false} MissingMountSpec(mounts: seq<VolumeMount>, names: set<string>)
    ensures MissingMount(mounts, names).None? <==> forall m :: m in mounts ==> m.name in names
    ensures MissingMount(mounts, names).Some? ==>
      exists j :: 0 <= j < |mounts| && mounts[j].name == MissingMount(mounts, names).value
        && mounts[j].name !in names && forall k :: 0 <= k < j ==> mounts[k].name in names
  {
    if |mounts| > 0 {
      MissingMountSpec(mounts[1..], names);
      if mounts[0].name in names && MissingMount(mounts, names).Some? {
        var j :| 0 <= j < |mounts[1..]| && mounts[1..][j].name == MissingMount(mounts, names).value
          && mounts[1..][j].name !in names && forall k :: 0 <= k < j ==> mounts[1..][k].name in names;
        assert mounts[j + 1] == mounts[1..][j];
        assert forall k :: 1 <= k < j + 1 ==> mounts[k] == mounts[1..][k - 1];
      }
      if mounts[0].name in names {
        assert forall m :: m in mounts ==> m == mounts[0] || m in mounts[1..];
      }
    }
  }

  function MountMessage(name: string): string {
    "volume for the Volume Mount " + Quote(name) + " is not found"
  }

  function EnvMergeMessage(strategyName: string, err: string): string {
    "error(s) occurred merging environment variables into BuildStrategy " + Quote(strategyName) + " steps: " + err
  }

  /** The Tekton step for one strategy step, with the step's env merged into `combinedEnvs`. */
  function StepFrom(s: Beta.Step, env: seq<EnvVar>): (t: Step)
    ensures t.name == s.container.name && t.image == Transform(s.container.image)
    ensures t.command == TransformAll(s.container.command) && t.args == TransformAll(s.container.args)
    ensures t.volumeMounts == s.container.volumeMounts && t.env == env
  {
    var c := s.container;
    Step(c.name, Transform(c.image), c.imagePullPolicy, TransformAll(c.command), TransformAll(c.args),
      c.workingDir, env, c.resources, c.volumeMounts, s.securityContext)
  }

  /** One iteration of the step loop: the env merge, then the mount check. */
  function StepOf(h: Helpers, combinedEnvs: seq<EnvVar>, volumes: set<string>, s: Beta.Step): Result<Step, string>
  {
    match h.mergeEnvVars(combinedEnvs, s.container.env, false)
    case Err(e) => Err(EnvMergeMessage(h.strategyName, e))
    case Ok(env) =>
      match MissingMount(s.container.volumeMounts, volumes)
      case Some(n) => Err(MountMessage(n))
      case None => Ok(StepFrom(s, env))
  }

  /** `done` ahead of the steps of an outcome, or its error. */
  function Prefix(done: seq<Step>, r: Result<seq<Step>, string>): Result<seq<Step>, string> {
    match r
    case Ok(rest) => Ok(done + rest)
    case Err(e) => Err(e)
  }

  /** The step loop: the Tekton steps in order, or the error of the first step that fails. */
  function StepsOf(h: Helpers, combinedEnvs: seq<EnvVar>, volumes: set<string>, steps: seq<Beta.Step>)
    : Result<seq<Step>, string>
    decreases |steps|
  {
    if |steps| == 0 then Ok([])
    else match StepOf(h, combinedEnvs, volumes, steps[0])
      case Err(e) => Err(e)
      case Ok(t) => Prefix([t], StepsOf(h, combinedEnvs, volumes, steps[1..]))
  }

  /** All the volume mounts of the steps, in order. */
  function AllMounts(steps: seq<Beta.Step>): seq<VolumeMount> {
    if |steps| == 0 then [] else AllMounts(steps[..|steps| - 1]) + steps[|steps| - 1].container.volumeMounts
  }

  /** The volumeMounts map after writing every mount in turn: the last write of a name wins. */
  function MountMap(mounts: seq<VolumeMount>): map<string, bool> {
    if |mounts| == 0 then map[]
    else MountMap(mounts[..|mounts| - 1])[mounts[|mounts| - 1].name := mounts[|mounts| - 1].readOnly]
  }

  /** Specification of GenerateTaskSpec. */
  function TaskSpecOf(
    h: Helpers, build: Beta.BuildSpec, buildRun: Beta.BuildRunSpec,
    buildSteps: seq<Beta.Step>, defs: seq<Beta.Parameter>, vols: seq<Beta.BuildStrategyVolume>)
    : Result<TaskSpec, string>
  {
    var amended := h.amendWithSources(InitialTaskSpec(h.taskResults));
    match h.mergeEnvVars(buildRun.env, build.env, true)
    case Err(e) => Err(e)
    case Ok(combined) =>
      match StepsOf(h, combined, VolumeNames(vols), buildSteps)
      case Err(e) => Err(e)
      case Ok(steps) =>
        match h.taskSpecVolumes(MountMap(AllMounts(buildSteps)), vols, build.volumes, buildRun.volumes)
        case Err(e) => Err(e)
        case Ok(vs) =>
          Ok(amended.(params := amended.params + ParamSpecsOf(defs),
            steps := amended.steps + steps, volumes := amended.volumes + vs))
  }

  /** The strategy-parameter loop: one Tekton parameter per definition, appended in order. */
  method AppendStrategyParams(spec: TaskSpec, defs: seq<Beta.Parameter>) returns (r: TaskSpec)
    ensures r == spec.(params := spec.params + ParamSpecsOf(defs))
  {
    r := spec;
    for i := 0 to |defs|
      invariant r == spec.(params := spec.params + ParamSpecsOf(defs[..i]))
    {
      var d := defs[i];
      var param := ParamSpec(d.name, d.description, "", None);
      if d.paramType == "" || d.paramType == StrategyString {
        param := param.(paramType := TektonString);
        if d.default.Some? {
          param := param.(default := Some(TektonValue(TektonString, d.default.value, [])));
        }
      } else if d.paramType == StrategyArray {
        param := param.(paramType := TektonArray);
        if d.defaults.Some? {
          param := param.(default := Some(TektonValue(TektonArray, "", d.defaults.value)));
        }
      }
      assert ParamSpecsOf(defs[..i + 1]) == ParamSpecsOf(defs[..i]) + [param];
      r := r.(params := r.params + [param]);
    }
    assert defs[..|defs|] == defs;
  }

  /** getStringTransformations over every part of a command or argument list. */
  method TransformParts(parts: seq<string>, keys: seq<string>) returns (r: seq<string>)
    requires IsTableOrder(keys)
    ensures r == TransformAll(parts)
  {
    r := [];
    for j := 0 to |parts|
      invariant |r| == j && forall k :: 0 <= k < j ==> r[k] == Transform(parts[k])
    {
      var part := GetStringTransformations(parts[j], keys);
      r := r + [part];
    }
  }

  /**
   * The mount check of one step: every mount must name a strategy volume; each one
   * checked is recorded in `volumeMounts` with its read-only flag.
   */
  method CheckMounts(mounts: seq<VolumeMount>, strategyVolumes: map<string, bool>, volumeMounts: map<string, bool>, ghost prior: seq<VolumeMount>)
    returns (missing: Option<string>, updated: map<string, bool>)
    requires volumeMounts == MountMap(prior)
    ensures missing == MissingMount(mounts, strategyVolumes.Keys)
    ensures missing.None? ==> updated == MountMap(prior + mounts)
  {
    updated := volumeMounts;
    assert prior + mounts[..0] == prior;
    for j := 0 to |mounts|
      invariant MissingMount(mounts[j..], strategyVolumes.Keys) == MissingMount(mounts, strategyVolumes.Keys)
      invariant updated == MountMap(prior + mounts[..j])
    {
      assert mounts[j..][1..] == mounts[j + 1..];
      var vm := mounts[j];
      if vm.name !in strategyVolumes {
        return Some(vm.name), updated;
      }
      assert (prior + mounts[..j + 1])[..|prior + mounts[..j + 1]| - 1] == prior + mounts[..j];
      updated := updated[vm.name := vm.readOnly];
    }
    assert mounts[|mounts|..] == [] && mounts[..|mounts|] == mounts;
    missing := None;
  }

  /**
   * One iteration of the step loop: the rewritten command, arguments and image, the
   * merged env, then the mount check, which records the step's mounts in `volumeMounts`.
   */
  method GenerateStep(
    h: Helpers, keys: seq<string>, combinedEnvs: seq<EnvVar>, s: Beta.Step,
    strategyVolumes: map<string, bool>, volumeMounts: map<string, bool>, ghost prior: seq<VolumeMount>)
    returns (r: Result<Step, string>, updated: map<string, bool>)
    requires IsTableOrder(keys) && volumeMounts == MountMap(prior)
    ensures r == StepOf(h, combinedEnvs, strategyVolumes.Keys, s)
    ensures r.Ok? ==> updated == MountMap(prior + s.container.volumeMounts)
  {
    updated := volumeMounts;
    var c := s.container;
    var taskCommand := TransformParts(c.command, keys);
    var taskArgs := TransformParts(c.args, keys);
    var taskImage := GetStringTransformations(c.image, keys);

    var stepEnv := h.mergeEnvVars(combinedEnvs, c.env, false);
    if stepEnv.Err? {
      return Err(EnvMergeMessage(h.strategyName, stepEnv.error)), updated;
    }

    var step := Step(c.name, taskImage, c.imagePullPolicy, taskCommand, taskArgs, c.workingDir,
      stepEnv.value, c.resources, c.volumeMounts, s.securityContext);

    var missing;
    missing, updated := CheckMounts(c.volumeMounts, strategyVolumes, volumeMounts, prior);
    if missing.Some? {
      return Err(MountMessage(missing.value)), updated;
    }
    return Ok(step), updated;
  }

  /** The step loop: the Tekton steps, and the volumeMounts map of all their mounts. */
  method GenerateSteps(
    h: Helpers, keys: seq<string>, combinedEnvs: seq<EnvVar>, buildSteps: seq<Beta.Step>,
    strategyVolumes: map<string, bool>)
    returns (r: Result<seq<Step>, string>, volumeMounts: map<string, bool>)
    requires IsTableOrder(keys)
    ensures r == StepsOf(h, combinedEnvs, strategyVolumes.Keys, buildSteps)
    ensures r.Ok? ==> volumeMounts == MountMap(AllMounts(buildSteps))
  {
    volumeMounts := map[];
    var steps: seq<Step> := [];
    assert buildSteps[0..] == buildSteps;
    ghost var all := StepsOf(h, combinedEnvs, strategyVolumes.Keys, buildSteps);
    if all.Ok? {
      assert [] + all.value == all.value;
    }

    for i := 0 to |buildSteps|
      invariant Prefix(steps, StepsOf(h, combinedEnvs, strategyVolumes.Keys, buildSteps[i..])) == all
      invariant volumeMounts == MountMap(AllMounts(buildSteps[..i]))
    {
      StepsOfStep(h, combinedEnvs, strategyVolumes.Keys, buildSteps, i, steps, all);
      var step;
      step, volumeMounts := GenerateStep(h, keys, combinedEnvs, buildSteps[i], strategyVolumes, volumeMounts,
        AllMounts(buildSteps[..i]));
      if step.Err? {
        return Err(step.error), volumeMounts;
      }
      steps := steps + [step.value];
    }
    assert buildSteps[|buildSteps|..] == [] && buildSteps[..|buildSteps|] == buildSteps;
    assert steps + [] == steps;
    return Ok(steps), volumeMounts;
  }

  /** One iteration of the step loop, as StepsOf and AllMounts see it. */
  lemma StepsOfStep(
    h: Helpers, combinedEnvs: seq<EnvVar>, volumes: set<string>, buildSteps: seq<Beta.Step>, i: int,
    done: seq<Step>, all: Result<seq<Step>, string>)
    requires 0 <= i < |buildSteps|
    requires Prefix(done, StepsOf(h, combinedEnvs, volumes, buildSteps[i..])) == all
    ensures AllMounts(buildSteps[..i + 1]) == AllMounts(buildSteps[..i]) + buildSteps[i].container.volumeMounts
    ensures match StepOf(h, combinedEnvs, volumes, buildSteps[i])
      case Err(e) => all == Err(e)
      case Ok(t) => Prefix(done + [t], StepsOf(h, combinedEnvs, volumes, buildSteps[i + 1..])) == all
  {
    assert buildSteps[i..][1..] == buildSteps[i + 1..];
    assert buildSteps[..i + 1][..i] == buildSteps[..i];
    var rest := StepsOf(h, combinedEnvs, volumes, buildSteps[i + 1..]);
    var first := StepOf(h, combinedEnvs, volumes, buildSteps[i]);
    if first.Ok? && rest.Ok? {
      assert done + ([first.value] + rest.value) == (done + [first.value]) + rest.value;
    }
  }

  /**
   * GenerateTaskSpec. The fixed parameters and the source workspace come first; the
   * sources amend that spec; the strategy's parameters follow; the env of the Build and
   * the BuildRun is merged; then every strategy step becomes a Tekton step whose command,
   * arguments and image are rewritten, whose env is merged, and whose mounts must name
   * strategy volumes; finally the volumes are added. `keys` is the iteration order of
   * the rewriting table.
   */
  method GenerateTaskSpec(
    h: Helpers, keys: seq<string>, build: Beta.BuildSpec, buildRun: Beta.BuildRunSpec,
    buildSteps: seq<Beta.Step>, defs: seq<Beta.Parameter>, vols: seq<Beta.BuildStrategyVolume>)
    returns (r: Result<TaskSpec, string>)
    requires IsTableOrder(keys)
    ensures r == TaskSpecOf(h, build, buildRun, buildSteps, defs, vols)
  {
    var spec := h.amendWithSources(InitialTaskSpec(h.taskResults));
    spec := AppendStrategyParams(spec, defs);

    var combinedEnvs := h.mergeEnvVars(buildRun.env, build.env, true);
    if combinedEnvs.Err? {
      return Err(combinedEnvs.error);
    }

    var strategyVolumes := ToVolumeMap(vols);
    var steps, volumeMounts := GenerateSteps(h, keys, combinedEnvs.value, buildSteps, strategyVolumes);
    if steps.Err? {
      return Err(steps.error);
    }

    var volumes := h.taskSpecVolumes(volumeMounts, vols, build.volumes, buildRun.volumes);
    if volumes.Err? {
      return Err(volumes.error);
    }
    spec := spec.(steps := spec.steps + steps.value, volumes := spec.volumes + volumes.value);
    return Ok(spec);
  }

  // ---------------------------------------------------------------------------
  // Properties of the task spec
  // ---------------------------------------------------------------------------

  /** One step succeeds exactly when its env merges and each of its mounts names a strategy volume. */
  lemma StepOfSpec(h: Helpers, combinedEnvs: seq<EnvVar>, volumes: set<string>, s: Beta.Step)
    ensures StepOf(h, combinedEnvs, volumes, s).Ok? <==>
      h.mergeEnvVars(combinedEnvs, s.container.env, false).Ok?
      && forall m :: m in s.container.volumeMounts ==> m.name in volumes
    ensures h.mergeEnvVars(combinedEnvs, s.container.env, false).Err? ==>
      StepOf(h, combinedEnvs, volumes, s)
        == Err(EnvMergeMessage(h.strategyName, h.mergeEnvVars(combinedEnvs, s.container.env, false).error))
    ensures h.mergeEnvVars(combinedEnvs, s.container.env, false).Ok? && StepOf(h, combinedEnvs, volumes, s).Err? ==>
      exists j :: 0 <= j < |s.container.volumeMounts| && s.container.volumeMounts[j].name !in volumes
        && (forall k :: 0 <= k < j ==> s.container.volumeMounts[k].name in volumes)
        && StepOf(h, combinedEnvs, volumes, s) == Err(MountMessage(s.container.volumeMounts[j].name))
  {
    MissingMountSpec(s.container.volumeMounts, volumes);
  }

  /** The step loop succeeds exactly when every step does. */
  lemma {:induction false} StepsOfSucceeds(h: Helpers, combinedEnvs: seq<EnvVar>, volumes: set<string>, steps: seq<Beta.Step>)
    ensures StepsOf(h, combinedEnvs, volumes, steps).Ok? <==>
      forall i :: 0 <= i < |steps| ==> StepOf(h, combinedEnvs, volumes, steps[i]).Ok?
    decreases |steps|
  {
    if |steps| > 0 {
      var tail := steps[1..];
      StepsOfSucceeds(h, combinedEnvs, volumes, tail);
      assert forall i :: 1 <= i < |steps| ==> steps[i] == tail[i - 1];
    }
  }

  /** A successful step loop yields one Tekton step per strategy step, in order. */
  lemma {:induction false} StepsOfValues(h: Helpers, combinedEnvs: seq<EnvVar>, volumes: set<string>, steps: seq<Beta.Step>)
    requires StepsOf(h, combinedEnvs, volumes, steps).Ok?
    ensures |StepsOf(h, combinedEnvs, volumes, steps).value| == |steps|
    ensures forall i :: 0 <= i < |steps| ==>
      StepOf(h, combinedEnvs, volumes, steps[i]).Ok?
      && StepsOf(h, combinedEnvs, volumes, steps).value[i] == StepOf(h, combinedEnvs, volumes, steps[i]).value
    decreases |steps|
  {
    if |steps| > 0 {
      var tail := steps[1..];
      StepsOfValues(h, combinedEnvs, volumes, tail);
      var rest := StepsOf(h, combinedEnvs, volumes, tail).value;
      var t := StepOf(h, combinedEnvs, volumes, steps[0]).value;
      assert StepsOf(h, combinedEnvs, volumes, steps).value == [t] + rest;
      assert forall i :: 1 <= i < |steps| ==> steps[i] == tail[i - 1];
    }
  }

  /** Otherwise it fails with the error of the first step that fails. */
  lemma {:induction false} StepsOfFails(h: Helpers, combinedEnvs: seq<EnvVar>, volumes: set<string>, steps: seq<Beta.Step>)
    requires StepsOf(h, combinedEnvs, volumes, steps).Err?
    ensures exists i ::
      && 0 <= i < |steps| && StepOf(h, combinedEnvs, volumes, steps[i]).Err?
      && (forall k :: 0 <= k < i ==> StepOf(h, combinedEnvs, volumes, steps[k]).Ok?)
      && StepsOf(h, combinedEnvs, volumes, steps).error == StepOf(h, combinedEnvs, volumes, steps[i]).error
    decreases |steps|
  {
    var tail := steps[1..];
    var first := StepOf(h, combinedEnvs, volumes, steps[0]);
    if first.Err? {
      assert StepOf(h, combinedEnvs, volumes, steps[0]).Err?;
    } else {
      StepsOfFails(h, combinedEnvs, volumes, tail);
      var i :| 0 <= i < |tail| && StepOf(h, combinedEnvs, volumes, tail[i]).Err?
        && (forall k :: 0 <= k < i ==> StepOf(h, combinedEnvs, volumes, tail[k]).Ok?)
        && StepsOf(h, combinedEnvs, volumes, tail).error == StepOf(h, combinedEnvs, volumes, tail[i]).error;
      assert forall k :: 1 <= k <= i + 1 ==> steps[k] == tail[k - 1];
      assert StepOf(h, combinedEnvs, volumes, steps[i + 1]).Err?;
    }
  }

  /** Every mount of every step is in AllMounts, and nothing else is. */
  lemma {:induction false} AllMountsSpec(steps: seq<Beta.Step>)
    ensures forall m :: m in AllMounts(steps) <==> exists i :: 0 <= i < |steps| && m in steps[i].container.volumeMounts
  {
    if |steps| > 0 {
      var init := steps[..|steps| - 1];
      AllMountsSpec(init);
      assert forall i :: 0 <= i < |init| ==> init[i] == steps[i];
    }
  }

  /** The volumeMounts map has a key for exactly the mounted names. */
  lemma {:induction false} MountMapKeys(mounts: seq<VolumeMount>)
    ensures MountMap(mounts).Keys == set m | m in mounts :: m.name
  {
    if |mounts| > 0 {
      var init := mounts[..|mounts| - 1];
      MountMapKeys(init);
      assert mounts == init + [mounts[|mounts| - 1]];
    }
  }

  /** On success, every key handed to TaskSpecVolumes names a strategy volume. */
  lemma TaskSpecMountsCovered(
    h: Helpers, build: Beta.BuildSpec, buildRun: Beta.BuildRunSpec,
    buildSteps: seq<Beta.Step>, defs: seq<Beta.Parameter>, vols: seq<Beta.BuildStrategyVolume>)
    requires TaskSpecOf(h, build, buildRun, buildSteps, defs, vols).Ok?
    ensures MountMap(AllMounts(buildSteps)).Keys <= VolumeNames(vols)
  {
    var combined := h.mergeEnvVars(buildRun.env, build.env, true).value;
    var names := VolumeNames(vols);
    StepsOfSucceeds(h, combined, names, buildSteps);
    forall i | 0 <= i < |buildSteps|
      ensures forall m :: m in buildSteps[i].container.volumeMounts ==> m.name in names
    {
      StepOfSpec(h, combined, names, buildSteps[i]);
    }
    AllMountsSpec(buildSteps);
    MountMapKeys(AllMounts(buildSteps));
  }

  /** On success, the strategy's parameters follow the amended spec's, one per definition in order. */
  lemma TaskSpecOfParams(
    h: Helpers, build: Beta.BuildSpec, buildRun: Beta.BuildRunSpec,
    buildSteps: seq<Beta.Step>, defs: seq<Beta.Parameter>, vols: seq<Beta.BuildStrategyVolume>)
    requires TaskSpecOf(h, build, buildRun, buildSteps, defs, vols).Ok?
    ensures var amended := h.amendWithSources(InitialTaskSpec(h.taskResults));
      var spec := TaskSpecOf(h, build, buildRun, buildSteps, defs, vols).value;
      && |spec.params| == |amended.params| + |defs|
      && spec.params[..|amended.params|] == amended.params
      && (forall i :: 0 <= i < |defs| ==> spec.params[|amended.params| + i] == ParamSpecOf(defs[i]))
  {
  }

  /**
   * When amending the task spec with the sources keeps the parameters it is given in
   * front, the generated spec declares the five fixed parameters first: CONTEXT_DIR with
   * default ".", then shp-output-image, shp-output-insecure, shp-source-context and
   * shp-source-root, all of Tekton's string type.
   */
  lemma TaskSpecFixedParamsFirst(
    h: Helpers, build: Beta.BuildSpec, buildRun: Beta.BuildRunSpec,
    buildSteps: seq<Beta.Step>, defs: seq<Beta.Parameter>, vols: seq<Beta.BuildStrategyVolume>)
    requires TaskSpecOf(h, build, buildRun, buildSteps, defs, vols).Ok?
    requires var amended := h.amendWithSources(InitialTaskSpec(h.taskResults));
      |FixedParams| <= |amended.params| && amended.params[..|FixedParams|] == FixedParams
    ensures var spec := TaskSpecOf(h, build, buildRun, buildSteps, defs, vols).value;
      && 5 <= |spec.params|
      && spec.params[..5] == FixedParams
      && spec.params[0].name == "CONTEXT_DIR" && spec.params[0].default == Some(TektonValue("string", ".", []))
      && spec.params[1].name == "shp-output-image"
      && spec.params[2].name == "shp-output-insecure"
      && spec.params[3].name == "shp-source-context"
      && spec.params[4].name == "shp-source-root"
      && forall i :: 1 <= i < 5 ==> spec.params[i].paramType == "string"
  {
    TaskSpecOfParams(h, build, buildRun, buildSteps, defs, vols);
    var amended := h.amendWithSources(InitialTaskSpec(h.taskResults));
    var spec := TaskSpecOf(h, build, buildRun, buildSteps, defs, vols).value;
    PrefixOfPrefix(spec.params, amended.params, FixedParams);
    FixedParamsDeclared();
  }

  /** The fixed parameters' names, defaults and types, as the formatting prints them. */
  lemma FixedParamsDeclared()
    ensures |FixedParams| == 5
    ensures FixedParams[0].name == "CONTEXT_DIR" && FixedParams[0].default == Some(TektonValue("string", ".", []))
    ensures FixedParams[1].name == "shp-output-image"
    ensures FixedParams[2].name == "shp-output-insecure"
    ensures FixedParams[3].name == "shp-source-context"
    ensures FixedParams[4].name == "shp-source-root"
    ensures forall i :: 1 <= i < 5 ==> FixedParams[i].paramType == "string"
  {
  }

  lemma PrefixOfPrefix<T>(s: seq<T>, a: seq<T>, f: seq<T>)
    requires |a| <= |s| && s[..|a|] == a
    requires |f| <= |a| && a[..|f|] == f
    ensures |f| <= |s| && s[..|f|] == f
  {
    assert s[..|f|] == s[..|a|][..|f|];
  }

  /**
   * A Tekton step made from a strategy step: same name and mounts, command, arguments
   * and image rewritten, and no placeholder left in the image.
   */
  predicate RewrittenStep(t: Step, s: Beta.Step) {
    && t.name == s.container.name
    && t.image == Transform(s.container.image)
    && !Contains(t.image, ImagePlaceholder) && !Contains(t.image, ContextDirPlaceholder)
    && t.command == TransformAll(s.container.command)
    && t.args == TransformAll(s.container.args)
    && t.volumeMounts == s.container.volumeMounts
  }

  /** A successful step loop rewrites every strategy step. */
  lemma StepsRewritten(h: Helpers, combinedEnvs: seq<EnvVar>, volumes: set<string>, steps: seq<Beta.Step>)
    requires StepsOf(h, combinedEnvs, volumes, steps).Ok?
    ensures |StepsOf(h, combinedEnvs, volumes, steps).value| == |steps|
    ensures forall i :: 0 <= i < |steps| ==> RewrittenStep(StepsOf(h, combinedEnvs, volumes, steps).value[i], steps[i])
  {
    StepsOfValues(h, combinedEnvs, volumes, steps);
    forall i | 0 <= i < |steps|
      ensures RewrittenStep(StepsOf(h, combinedEnvs, volumes, steps).value[i], steps[i])
    {
      TransformRemovesPlaceholders(steps[i].container.image);
    }
  }

  /**
   * On success, the strategy's steps follow the amended spec's, one rewritten Tekton step
   * per strategy step, in order.
   */
  lemma TaskSpecOfSteps(
    h: Helpers, build: Beta.BuildSpec, buildRun: Beta.BuildRunSpec,
    buildSteps: seq<Beta.Step>, defs: seq<Beta.Parameter>, vols: seq<Beta.BuildStrategyVolume>)
    requires TaskSpecOf(h, build, buildRun, buildSteps, defs, vols).Ok?
    ensures var amended := h.amendWithSources(InitialTaskSpec(h.taskResults));
      var spec := TaskSpecOf(h, build, buildRun, buildSteps, defs, vols).value;
      && |spec.steps| == |amended.steps| + |buildSteps|
      && spec.steps[..|amended.steps|] == amended.steps
      && forall i :: 0 <= i < |buildSteps| ==> RewrittenStep(spec.steps[|amended.steps| + i], buildSteps[i])
  {
    var amended := h.amendWithSources(InitialTaskSpec(h.taskResults));
    var combined := h.mergeEnvVars(buildRun.env, build.env, true).value;
    var names := VolumeNames(vols);
    var steps := StepsOf(h, combined, names, buildSteps).value;
    var spec := TaskSpecOf(h, build, buildRun, buildSteps, defs, vols).value;
    assert spec.steps == amended.steps + steps;
    StepsRewritten(h, combined, names, buildSteps);
    assert forall i :: 0 <= i < |buildSteps| ==> spec.steps[|amended.steps| + i] == steps[i];
  }

  /**
   * A mount of a strategy step that names no strategy volume fails the generation with
   * the mount message, once the env merges succeed.
   */
  lemma TaskSpecOfMissingVolume(
    h: Helpers, build: Beta.BuildSpec, buildRun: Beta.BuildRunSpec,
    buildSteps: seq<Beta.Step>, defs: seq<Beta.Parameter>, vols: seq<Beta.BuildStrategyVolume>, i: nat, m: VolumeMount)
    requires h.mergeEnvVars(buildRun.env, build.env, true).Ok?
    requires forall k :: 0 <= k < |buildSteps| ==>
      h.mergeEnvVars(h.mergeEnvVars(buildRun.env, build.env, true).value, buildSteps[k].container.env, false).Ok?
    requires i < |buildSteps| && m in buildSteps[i].container.volumeMounts && m.name !in VolumeNames(vols)
    ensures TaskSpecOf(h, build, buildRun, buildSteps, defs, vols).Err?
    ensures exists n :: n !in VolumeNames(vols) && TaskSpecOf(h, build, buildRun, buildSteps, defs, vols) == Err(MountMessage(n))
  {
    var combined := h.mergeEnvVars(buildRun.env, build.env, true).value;
    var names := VolumeNames(vols);
    StepsOfSucceeds(h, combined, names, buildSteps);
    StepOfSpec(h, combined, names, buildSteps[i]);
    StepsOfFails(h, combined, names, buildSteps);
    var j :| 0 <= j < |buildSteps| && StepOf(h, combined, names, buildSteps[j]).Err?
      && StepsOf(h, combined, names, buildSteps).error == StepOf(h, combined, names, buildSteps[j]).error;
    StepOfSpec(h, combined, names, buildSteps[j]);
  }

  // ---------------------------------------------------------------------------
  // GenerateTaskRun
  // ---------------------------------------------------------------------------

  /** The labels naming the BuildRun, and the Build unless it is embedded (has no name). */
  function BaseLabels(c: ApiConstants, buildMeta: Meta, runMeta: Meta): map<string, string> {
    var labels := map[c.labelBuildRun := runMeta.name, c.labelBuildRunGeneration := FormatInt(runMeta.generation)];
    if buildMeta.name != "" then
      labels[c.labelBuild := buildMeta.name][c.labelBuildGeneration := FormatInt(buildMeta.generation)]
    else labels
  }

  /** The loop copying the strategy's resource labels: they overwrite labels with the same key. */
  method AddResourceLabels(labels: map<string, string>, resourceLabels: map<string, string>) returns (r: map<string, string>)
    ensures r.Keys == labels.Keys + resourceLabels.Keys
    ensures forall k :: k in resourceLabels ==> r[k] == resourceLabels[k]
    ensures forall k :: k in labels && k !in resourceLabels ==> r[k] == labels[k]
    ensures r == labels + resourceLabels
  {
    r := labels;
    var todo := resourceLabels.Keys;
    while todo != {}
      invariant todo <= resourceLabels.Keys
      invariant r == labels + (resourceLabels - todo)
      decreases todo
    {
      var key :| key in todo;
      r := r[key := resourceLabels[key]];
      todo := todo - {key};
    }
    assert resourceLabels - {} == resourceLabels;
  }

  function StringParam(name: string, value: string): TaskParam {
    TaskParam(name, TektonValue(TektonString, value, []))
  }

  /** The parameters GenerateTaskRun sets before the strategy's parameter values. */
  function RunParamsOf(h: Helpers, image: string, insecure: bool, contextDir: Option<string>): seq<TaskParam> {
    var fixed := [
      StringParam(OutputImageParam, image),
      StringParam(OutputInsecureParam, FormatBool(insecure)),
      StringParam(SourceRootParam, SourceRoot)];
    if contextDir.Some? then
      fixed + [StringParam(InputParamContextDir, contextDir.value),
               StringParam(SourceContextParam, h.pathJoin(SourceRoot, contextDir.value))]
    else fixed + [StringParam(SourceContextParam, SourceRoot)]
  }

  /** The TaskRun before the strategy's parameter values and the image processing. */
  function DraftTaskRun(
    c: ApiConstants, h: Helpers, build: Beta.BuildSpec, buildMeta: Meta, buildRun: Beta.BuildRunSpec, runMeta: Meta,
    serviceAccountName: string, strategy: StrategyView)
    : Result<TaskRun, string>
  {
    match TaskSpecOf(h, build, buildRun, strategy.steps, strategy.parameters, strategy.volumes)
    case Err(e) => Err(e)
    case Ok(spec) =>
      var updated := h.updateSecurityContext(spec, PropagatedAnnotations(c, strategy.annotations),
        strategy.steps, strategy.securityContext);
      Ok(TaskRun(runMeta.name + "-", runMeta.namespace, BaseLabels(c, buildMeta, runMeta) + strategy.resourceLabels,
        updated.1, serviceAccountName, updated.0, [WorkspaceSource], EffectiveTimeout(build, buildRun),
        RunParamsOf(h, OutputImage(build, buildRun), OutputInsecure(build, buildRun), build.source.contextDir)))
  }

  /** The image and insecure flag of GenerateTaskRun, by precedence. */
  method ResolveOutput(build: Beta.BuildSpec, buildRun: Beta.BuildRunSpec) returns (image: string, insecure: bool)
    ensures image == OutputImage(build, buildRun) && insecure == OutputInsecure(build, buildRun)
  {
    if buildRun.output.Some? {
      image := buildRun.output.value.image;
    } else {
      image := build.output.image;
    }

    insecure := false;
    if buildRun.output.Some? && buildRun.output.value.insecure.Some? {
      insecure := buildRun.output.value.insecure.value;
    } else if build.output.insecure.Some? {
      insecure := build.output.insecure.value;
    }
  }

  /** The label map of GenerateTaskRun before the strategy's resource labels. */
  method InitialLabels(c: ApiConstants, buildMeta: Meta, runMeta: Meta) returns (labels: map<string, string>)
    ensures labels == BaseLabels(c, buildMeta, runMeta)
  {
    labels := map[c.labelBuildRun := runMeta.name, c.labelBuildRunGeneration := FormatInt(runMeta.generation)];
    if buildMeta.name != "" {
      labels := labels[c.labelBuild := buildMeta.name];
      labels := labels[c.labelBuildGeneration := FormatInt(buildMeta.generation)];
    }
  }

  /** The parameter list of GenerateTaskRun before the strategy's parameter values. */
  method TaskRunParams(h: Helpers, image: string, insecure: bool, contextDir: Option<string>)
    returns (params: seq<TaskParam>)
    ensures params == RunParamsOf(h, image, insecure, contextDir)
  {
    params := [
      StringParam(OutputImageParam, image),
      StringParam(OutputInsecureParam, FormatBool(insecure)),
      StringParam(SourceRootParam, SourceRoot)];
    if contextDir.Some? {
      params := params + [StringParam(InputParamContextDir, contextDir.value)];
      params := params + [StringParam(SourceContextParam, h.pathJoin(SourceRoot, contextDir.value))];
    } else {
      params := params + [StringParam(SourceContextParam, SourceRoot)];
    }
  }

  /**
   * GenerateTaskRun, from the Build's and the BuildRun's spec and metadata, the
   * service account and the strategy. `keys` is the iteration order of the rewriting table.
   */
  method GenerateTaskRun(
    c: ApiConstants, h: Helpers, keys: seq<string>, build: Beta.BuildSpec, buildMeta: Meta,
    buildRun: Beta.BuildRunSpec, runMeta: Meta, serviceAccountName: string, strategy: StrategyView)
    returns (r: Result<TaskRun, string>)
    requires IsTableOrder(keys)
    ensures DraftTaskRun(c, h, build, buildMeta, buildRun, runMeta, serviceAccountName, strategy).Err? ==>
      r == DraftTaskRun(c, h, build, buildMeta, buildRun, runMeta, serviceAccountName, strategy)
    ensures DraftTaskRun(c, h, build, buildMeta, buildRun, runMeta, serviceAccountName, strategy).Ok? ==>
      r == h.completeTaskRun(DraftTaskRun(c, h, build, buildMeta, buildRun, runMeta, serviceAccountName, strategy).value)
  {
    var image, insecure := ResolveOutput(build, buildRun);

    var taskSpec := GenerateTaskSpec(h, keys, build, buildRun, strategy.steps, strategy.parameters, strategy.volumes);
    if taskSpec.Err? {
      return Err(taskSpec.error);
    }

    var taskRunLabels := InitialLabels(c, buildMeta, runMeta);
    var expected := TaskRun(runMeta.name + "-", runMeta.namespace, taskRunLabels, map[], serviceAccountName,
      taskSpec.value, [WorkspaceSource], None, []);

    var taskRunAnnotations := FilterAnnotations(c, strategy.annotations);
    var updated := h.updateSecurityContext(taskSpec.value, taskRunAnnotations, strategy.steps, strategy.securityContext);
    expected := expected.(taskSpec := updated.0);
    taskRunAnnotations := updated.1;

    if |taskRunAnnotations| > 0 {
      expected := expected.(annotations := taskRunAnnotations);
    }

    var labels := AddResourceLabels(expected.labels, strategy.resourceLabels);
    expected := expected.(labels := labels);

    expected := expected.(timeout := EffectiveTimeout(build, buildRun));

    var params := TaskRunParams(h, image, insecure, build.source.contextDir);
    expected := expected.(params := params);

    r := h.completeTaskRun(expected);
  }

  // ---------------------------------------------------------------------------
  // Properties of the TaskRun
  // ---------------------------------------------------------------------------

  /** The label keys of the v1beta1 package are four different keys. */
  predicate DistinctLabelKeys(c: ApiConstants) {
    && c.labelBuildRun != c.labelBuildRunGeneration && c.labelBuildRun != c.labelBuild
    && c.labelBuildRun != c.labelBuildGeneration && c.labelBuildRunGeneration != c.labelBuild
    && c.labelBuildRunGeneration != c.labelBuildGeneration && c.labelBuild != c.labelBuildGeneration
  }

  /**
   * The BuildRun's name and generation are always labelled; the Build's name and
   * generation exactly when the Build has a name; a strategy resource label overwrites
   * any of them.
   */
  lemma TaskRunLabels(c: ApiConstants, buildMeta: Meta, runMeta: Meta, resourceLabels: map<string, string>)
    requires DistinctLabelKeys(c)
    ensures var labels := BaseLabels(c, buildMeta, runMeta) + resourceLabels;
      && (c.labelBuildRun !in resourceLabels ==> labels[c.labelBuildRun] == runMeta.name)
      && (c.labelBuildRunGeneration !in resourceLabels ==>
            labels[c.labelBuildRunGeneration] == FormatInt(runMeta.generation))
      && (c.labelBuild !in resourceLabels ==>
            (c.labelBuild in labels <==> buildMeta.name != "")
            && (buildMeta.name != "" ==> labels[c.labelBuild] == buildMeta.name))
      && (c.labelBuildGeneration !in resourceLabels ==>
            (c.labelBuildGeneration in labels <==> buildMeta.name != "")
            && (buildMeta.name != "" ==> labels[c.labelBuildGeneration] == FormatInt(buildMeta.generation)))
      && (forall k :: k in resourceLabels ==> labels[k] == resourceLabels[k])
  {
  }

  /** The parameter named `name`, the first one if several are. */
  function FindParam(params: seq<TaskParam>, name: string): Option<TaskParam> {
    if |params| == 0 then None
    else if params[0].name == name then Some(params[0])
    else FindParam(params[1..], name)
  }

  /**
   * The TaskRun's fixed parameters: the output image and insecure flag as chosen, the
   * source root, and a source context that is the context directory joined to the source
   * root when the Build has one (which then is also passed as CONTEXT_DIR), else the
   * source root itself.
   */
  lemma RunParams(h: Helpers, image: string, insecure: bool, contextDir: Option<string>)
    ensures var ps := RunParamsOf(h, image, insecure, contextDir);
      && FindParam(ps, OutputImageParam) == Some(StringParam(OutputImageParam, image))
      && FindParam(ps, OutputInsecureParam) == Some(StringParam(OutputInsecureParam, FormatBool(insecure)))
      && FindParam(ps, SourceRootParam) == Some(StringParam(SourceRootParam, SourceRoot))
      && (contextDir.Some? ==>
            && FindParam(ps, InputParamContextDir) == Some(StringParam(InputParamContextDir, contextDir.value))
            && FindParam(ps, SourceContextParam)
               == Some(StringParam(SourceContextParam, h.pathJoin(SourceRoot, contextDir.value))))
      && (contextDir.None? ==>
            && FindParam(ps, InputParamContextDir).None?
            && FindParam(ps, SourceContextParam) == Some(StringParam(SourceContextParam, SourceRoot)))
  {
    var ps := RunParamsOf(h, image, insecure, contextDir);
    var img, ins, root, ctx := OutputImageParam, OutputInsecureParam, SourceRootParam, SourceContextParam;
    assert img[4] != root[4] && img[4] != ctx[4] && ins[4] != root[4] && ins[4] != ctx[4];
    assert img[12] != ins[12] && root[11] != ctx[11];
    assert InputParamContextDir[0] != img[0] && InputParamContextDir[0] != ins[0];
    assert InputParamContextDir[0] != root[0] && InputParamContextDir[0] != ctx[0];
    var p1 := ps[1..];
    var p2 := p1[1..];
    var p3 := p2[1..];
    assert FindParam(ps, ins) == FindParam(p1, ins);
    assert FindParam(ps, root) == FindParam(p1, root) == FindParam(p2, root);
    assert FindParam(ps, ctx) == FindParam(p1, ctx) == FindParam(p2, ctx) == FindParam(p3, ctx);
    assert FindParam(ps, InputParamContextDir) == FindParam(p1, InputParamContextDir)
      == FindParam(p2, InputParamContextDir) == FindParam(p3, InputParamContextDir);
    if contextDir.Some? {
      var p4 := p3[1..];
      assert p3[0].name == InputParamContextDir && p4 == [ps[4]];
      assert FindParam(p3, ctx) == FindParam(p4, ctx);
    } else {
      assert p3 == [ps[3]] && p3[1..] == [];
      assert FindParam(p3, InputParamContextDir) == FindParam([], InputParamContextDir);
    }
  }

  /**
   * The TaskRun before its parameter values: named after the BuildRun, in its namespace,
   * bound to the source workspace, with the effective timeout, the propagated strategy
   * annotations as the security-context update leaves them, and the output image and
   * insecure flag by precedence.
   */
  lemma DraftTaskRunSpec(
    c: ApiConstants, h: Helpers, build: Beta.BuildSpec, buildMeta: Meta, buildRun: Beta.BuildRunSpec, runMeta: Meta,
    serviceAccountName: string, strategy: StrategyView)
    ensures DraftTaskRun(c, h, build, buildMeta, buildRun, runMeta, serviceAccountName, strategy).Ok? <==>
      TaskSpecOf(h, build, buildRun, strategy.steps, strategy.parameters, strategy.volumes).Ok?
    ensures DraftTaskRun(c, h, build, buildMeta, buildRun, runMeta, serviceAccountName, strategy).Ok? ==>
      var t := DraftTaskRun(c, h, build, buildMeta, buildRun, runMeta, serviceAccountName, strategy).value;
      var spec := TaskSpecOf(h, build, buildRun, strategy.steps, strategy.parameters, strategy.volumes).value;
      && t.generateName == runMeta.name + "-" && t.namespace == runMeta.namespace
      && t.serviceAccountName == serviceAccountName && t.workspaces == [WorkspaceSource]
      && t.timeout == EffectiveTimeout(build, buildRun)
      && (t.taskSpec, t.annotations) == h.updateSecurityContext(spec, PropagatedAnnotations(c, strategy.annotations),
           strategy.steps, strategy.securityContext)
      && t.params[0] == StringParam(OutputImageParam, OutputImage(build, buildRun))
      && t.params[1] == StringParam(OutputInsecureParam, FormatBool(OutputInsecure(build, buildRun)))
  {
  }
}
