// Data model of the two schema generations of Shipwright's custom resources
// (shipwright.io/v1alpha1 and shipwright.io/v1beta1), reduced to the fields the
// conversion layer and the BuildRun reconciler read or write.
//
// A Go pointer field becomes an Option; a Go slice becomes a seq; a Go map a map.
// A conversion that only casts a pointer between two structurally identical types
// of the two generations (`(*v1alpha1.ObjectKeyRef)(p.ConfigMapValue)`, ...) is
// modelled by using one shared type for both generations, so the cast is the
// identity.

module Wrappers {
  datatype Option<+T> = None | Some(value: T)

  datatype Result<+R, +E> = Ok(value: R) | Err(error: E)
}

/** Payloads of the Kubernetes API that the conversion layer copies verbatim. */
module Kube {
  type VolumeSource(==)
  type EnvVar(==)
  type ResourceRequirements(==)
  type SecurityContext(==)
  type Duration(==)
  type Time(==)
  type ObjectMeta(==)
  type PullPolicy(==)
  /** The value of a corev1.Container field that no step converter copies (ports, probes, lifecycle, stdin, tty, ...). */
  type ContainerField(==)

  /** corev1.LocalObjectReference: a reference to a Secret by name. */
  datatype LocalObjectReference = LocalObjectReference(name: string)

  /** corev1.VolumeMount, with the two fields the reconciler reads. */
  datatype VolumeMount = VolumeMount(name: string, readOnly: bool, mountPath: string)

  /** metav1.TypeMeta. */
  datatype TypeMeta = TypeMeta(apiVersion: string, kind: string)

  /** metav1.OwnerReference, with the fields the ownership validation reads. */
  datatype OwnerReference = OwnerReference(apiVersion: string, kind: string, name: string, controller: bool)
}

/** Types whose two generations are structurally identical (the converters cast between them). */
module Shared {
  import opened Wrappers
  import opened Kube

  datatype ObjectKeyRef = ObjectKeyRef(name: string, key: string, format: Option<string>)
  type WhenImage(==)
  type WhenObjectRef(==)
  type BuildRunRetention(==)
  type BuildStrategySecurityContext(==)
  type GitSourceResult(==)
  type OciArtifactSourceResult(==)
  type Output(==)
  type FailureDetails(==)

  /** A condition of a BuildRun status; identical in both generations up to the type name of `Type`. */
  datatype Condition = Condition(
    condType: string,
    status: string,
    lastTransitionTime: Time,
    reason: string,
    message: string)

  /** A strategy step's container fields copied by the strategy converter. */
  datatype StepContainer = StepContainer(
    name: string,
    image: string,
    command: seq<string>,
    args: seq<string>,
    workingDir: string,
    env: seq<EnvVar>,
    resources: ResourceRequirements,
    volumeMounts: seq<VolumeMount>,
    imagePullPolicy: PullPolicy)
}

/** shipwright.io/v1alpha1: the source variant is implicit in which fields are present. */
module Alpha {
  import opened Wrappers
  import opened Kube
  import opened Shared

  datatype BundleContainer = BundleContainer(image: string, prune: Option<string>)

  /** OCI when `bundleContainer` is present, Git otherwise; one credentials slot for both. */
  datatype Source = Source(
    bundleContainer: Option<BundleContainer>,
    url: Option<string>,
    revision: Option<string>,
    contextDir: Option<string>,
    credentials: Option<LocalObjectReference>)

  /** The embedded single value of a parameter (Go embeds it as a pointer). */
  datatype SingleValue = SingleValue(
    value: Option<string>,
    configMapValue: Option<ObjectKeyRef>,
    secretValue: Option<ObjectKeyRef>)

  datatype ParamValue = ParamValue(single: Option<SingleValue>, name: string, values: seq<SingleValue>)

  datatype WhenGitHub = WhenGitHub(events: seq<string>, branches: seq<string>)

  datatype TriggerWhen = TriggerWhen(
    name: string,
    triggerType: string,
    gitHub: Option<WhenGitHub>,
    image: Option<WhenImage>,
    objectRef: Option<WhenObjectRef>)

  datatype Trigger = Trigger(when: seq<TriggerWhen>, secretRef: Option<LocalObjectReference>)

  datatype Strategy = Strategy(name: string, kind: Option<string>, apiVersion: Option<string>)

  datatype Image = Image(
    image: string,
    insecure: Option<bool>,
    credentials: Option<LocalObjectReference>,
    annotations: map<string, string>,
    labels: map<string, string>)

  datatype BuildRetention = BuildRetention(
    failedLimit: Option<nat>,
    succeededLimit: Option<nat>,
    ttlAfterFailed: Option<Duration>,
    ttlAfterSucceeded: Option<Duration>)

  datatype BuildVolume = BuildVolume(name: string, description: Option<string>, volumeSource: VolumeSource)

  datatype BuildSpec = BuildSpec(
    source: Source,
    trigger: Option<Trigger>,
    strategy: Strategy,
    builder: Option<Image>,
    dockerfile: Option<string>,
    paramValues: seq<ParamValue>,
    output: Image,
    timeout: Option<Duration>,
    env: seq<EnvVar>,
    retention: Option<BuildRetention>,
    volumes: seq<BuildVolume>)

  datatype BuildStatus = BuildStatus(registered: Option<string>, reason: Option<string>, message: Option<string>)

  datatype Build = Build(typeMeta: TypeMeta, meta: ObjectMeta, spec: BuildSpec, status: BuildStatus)

  datatype BuildRef = BuildRef(name: string)

  datatype ServiceAccount = ServiceAccount(name: Option<string>)

  datatype BuildRunSpec = BuildRunSpec(
    buildSpec: Option<BuildSpec>,
    buildRef: Option<BuildRef>,
    serviceAccount: Option<ServiceAccount>,
    timeout: Option<Duration>,
    paramValues: seq<ParamValue>,
    output: Option<Image>,
    state: Option<string>,
    env: seq<EnvVar>,
    retention: Option<BuildRunRetention>,
    volumes: seq<BuildVolume>)

  datatype SourceResult = SourceResult(name: string, git: Option<GitSourceResult>, bundle: Option<OciArtifactSourceResult>)

  datatype BuildRunStatus = BuildRunStatus(
    sources: seq<SourceResult>,
    output: Option<Output>,
    conditions: seq<Condition>,
    latestTaskRunRef: Option<string>,
    startTime: Option<Time>,
    completionTime: Option<Time>,
    buildSpec: Option<BuildSpec>)

  datatype BuildRun = BuildRun(typeMeta: TypeMeta, meta: ObjectMeta, spec: BuildRunSpec, status: BuildRunStatus)

  /** A v1alpha1 strategy step is a whole corev1.Container: the fields that v1beta1 steps also have,
      the security context, and every other container field, keyed by its name. */
  datatype BuildStep = BuildStep(
    container: StepContainer,
    otherFields: map<string, ContainerField>,
    securityContext: Option<SecurityContext>)

  datatype Parameter = Parameter(
    name: string,
    description: string,
    paramType: string,
    default: Option<string>,
    defaults: Option<seq<string>>)

  datatype BuildStrategyVolume = BuildStrategyVolume(
    overridable: Option<bool>,
    name: string,
    description: Option<string>,
    volumeSource: VolumeSource)

  datatype BuildStrategySpec = BuildStrategySpec(
    buildSteps: seq<BuildStep>,
    parameters: seq<Parameter>,
    securityContext: Option<BuildStrategySecurityContext>,
    volumes: seq<BuildStrategyVolume>)

  datatype BuildStrategy = BuildStrategy(typeMeta: TypeMeta, meta: ObjectMeta, spec: BuildStrategySpec)

  const ZeroImage := Image("", None, None, map[], map[])

  /** The zero value of a BuildSpec (`var bs v1alpha1.Build` leaves `bs.Spec` so). */
  const ZeroBuildSpec := BuildSpec(Source(None, None, None, None, None), None, Strategy("", None, None), None, None, [], ZeroImage, None, [], None, [])

  const ZeroBuildStatus := BuildStatus(None, None, None)
}

/** shipwright.io/v1beta1: the source variant is an explicit `Type` tag. */
module Beta {
  import opened Wrappers
  import opened Kube
  import opened Shared

  const GitType := "Git"
  const OCIArtifactType := "OCI"

  datatype Git = Git(url: Option<string>, revision: Option<string>, cloneSecret: Option<string>)

  datatype OCIArtifact = OCIArtifact(image: string, prune: Option<string>, pullSecret: Option<string>)

  datatype Source = Source(
    sourceType: string,
    gitSource: Option<Git>,
    ociArtifact: Option<OCIArtifact>,
    contextDir: Option<string>)

  datatype SingleValue = SingleValue(
    value: Option<string>,
    configMapValue: Option<ObjectKeyRef>,
    secretValue: Option<ObjectKeyRef>)

  datatype ParamValue = ParamValue(single: Option<SingleValue>, name: string, values: seq<SingleValue>)

  datatype WhenGitHub = WhenGitHub(events: seq<string>, branches: seq<string>)

  datatype TriggerWhen = TriggerWhen(
    name: string,
    triggerType: string,
    gitHub: Option<WhenGitHub>,
    image: Option<WhenImage>,
    objectRef: Option<WhenObjectRef>)

  datatype Trigger = Trigger(when: seq<TriggerWhen>, triggerSecret: Option<string>)

  datatype Strategy = Strategy(name: string, kind: Option<string>, apiVersion: Option<string>)

  datatype Image = Image(
    image: string,
    insecure: Option<bool>,
    pushSecret: Option<string>,
    annotations: map<string, string>,
    labels: map<string, string>)

  datatype BuildRetention = BuildRetention(
    failedLimit: Option<nat>,
    succeededLimit: Option<nat>,
    ttlAfterFailed: Option<Duration>,
    ttlAfterSucceeded: Option<Duration>,
    atBuildDeletion: Option<bool>)

  datatype BuildVolume = BuildVolume(name: string, volumeSource: VolumeSource)

  datatype BuildSpec = BuildSpec(
    source: Source,
    trigger: Option<Trigger>,
    strategy: Strategy,
    paramValues: seq<ParamValue>,
    output: Image,
    timeout: Option<Duration>,
    env: seq<EnvVar>,
    retention: Option<BuildRetention>,
    volumes: seq<BuildVolume>)

  datatype BuildStatus = BuildStatus(registered: Option<string>, reason: Option<string>, message: Option<string>)

  datatype Build = Build(typeMeta: TypeMeta, meta: ObjectMeta, spec: BuildSpec, status: BuildStatus)

  datatype ReferencedBuild = ReferencedBuild(build: Option<BuildSpec>, name: string)

  datatype BuildRunSpec = BuildRunSpec(
    build: Option<ReferencedBuild>,
    serviceAccount: Option<string>,
    timeout: Option<Duration>,
    paramValues: seq<ParamValue>,
    output: Option<Image>,
    state: Option<string>,
    env: seq<EnvVar>,
    retention: Option<BuildRunRetention>,
    volumes: seq<BuildVolume>)

  datatype SourceResult = SourceResult(name: string, git: Option<GitSourceResult>, ociArtifact: Option<OciArtifactSourceResult>)

  datatype BuildRunStatus = BuildRunStatus(
    sources: seq<SourceResult>,
    output: Option<Output>,
    conditions: seq<Condition>,
    taskRunName: Option<string>,
    startTime: Option<Time>,
    completionTime: Option<Time>,
    buildSpec: Option<BuildSpec>,
    failureDetails: Option<FailureDetails>)

  datatype BuildRun = BuildRun(typeMeta: TypeMeta, meta: ObjectMeta, spec: BuildRunSpec, status: BuildRunStatus)

  datatype Step = Step(container: StepContainer, securityContext: Option<SecurityContext>)

  datatype Parameter = Parameter(
    name: string,
    description: string,
    paramType: string,
    default: Option<string>,
    defaults: Option<seq<string>>)

  datatype BuildStrategyVolume = BuildStrategyVolume(
    overridable: Option<bool>,
    name: string,
    description: Option<string>,
    volumeSource: VolumeSource)

  datatype BuildStrategySpec = BuildStrategySpec(
    steps: seq<Step>,
    parameters: seq<Parameter>,
    securityContext: Option<BuildStrategySecurityContext>,
    volumes: seq<BuildStrategyVolume>)

  datatype BuildStrategy = BuildStrategy(typeMeta: TypeMeta, meta: ObjectMeta, spec: BuildStrategySpec)

  const ZeroImage := Image("", None, None, map[], map[])

  /** The zero value of a BuildSpec (`Build{}.Spec` in Go). */
  const ZeroBuildSpec := BuildSpec(Source("", None, None, None), None, Strategy("", None, None), [], ZeroImage, None, [], None, [])
}
