// Conversion of a BuildStrategy between shipwright.io/v1alpha1 and shipwright.io/v1beta1
// (pkg/apis/build/v1beta1/buildstrategy_conversion.go): the steps, parameters,
// security context and volumes of the strategy spec.

module BuildStrategyConversion {
  import opened Wrappers
  import opened Kube
  import opened Shared
  import Alpha
  import Beta
  import opened BuildConversion

  /** A v1beta1 step becomes a v1alpha1 container holding only the copied fields. */
  function AlphaStepOf(s: Beta.Step): (r: Alpha.BuildStep)
    ensures r.container == s.container && r.securityContext == s.securityContext
    ensures r.otherFields == map[]
  {
    Alpha.BuildStep(s.container, map[], s.securityContext)
  }

  /** A v1alpha1 step becomes a v1beta1 step; the container fields outside the copied list are dropped. */
  function BetaStepOf(s: Alpha.BuildStep): (r: Beta.Step)
    ensures r.container == s.container && r.securityContext == s.securityContext
  {
    Beta.Step(s.container, s.securityContext)
  }

  function AlphaParameterOf(p: Beta.Parameter): (r: Alpha.Parameter)
    ensures r.name == p.name && r.description == p.description && r.paramType == p.paramType
    ensures r.default == p.default && r.defaults == p.defaults
  {
    Alpha.Parameter(p.name, p.description, p.paramType, p.default, p.defaults)
  }

  function BetaParameterOf(p: Alpha.Parameter): (r: Beta.Parameter)
    ensures r.name == p.name && r.description == p.description && r.paramType == p.paramType
    ensures r.default == p.default && r.defaults == p.defaults
  {
    Beta.Parameter(p.name, p.description, p.paramType, p.default, p.defaults)
  }

  /** A strategy volume in either direction: the description is filled from the volume's name. */
  function AlphaStrategyVolumeOf(v: Beta.BuildStrategyVolume): (r: Alpha.BuildStrategyVolume)
    ensures r.overridable == v.overridable && r.name == v.name && r.volumeSource == v.volumeSource
    ensures r.description == Some(v.name)
  {
    Alpha.BuildStrategyVolume(v.overridable, v.name, Some(v.name), v.volumeSource)
  }

  function BetaStrategyVolumeOf(v: Alpha.BuildStrategyVolume): (r: Beta.BuildStrategyVolume)
    ensures r.overridable == v.overridable && r.name == v.name && r.volumeSource == v.volumeSource
    ensures r.description == Some(v.name)
  {
    Beta.BuildStrategyVolume(v.overridable, v.name, Some(v.name), v.volumeSource)
  }

  /** Specification of the spec part of BuildStrategy.ConvertTo; the destination is fresh. */
  function AlphaStrategySpecOf(s: Beta.BuildStrategySpec): (r: Alpha.BuildStrategySpec)
    ensures |r.buildSteps| == |s.steps|
    ensures forall i :: 0 <= i < |s.steps| ==> r.buildSteps[i] == AlphaStepOf(s.steps[i])
    ensures |r.parameters| == |s.parameters|
    ensures forall i :: 0 <= i < |s.parameters| ==> r.parameters[i] == AlphaParameterOf(s.parameters[i])
    ensures r.securityContext == s.securityContext
    ensures |r.volumes| == |s.volumes|
    ensures forall i :: 0 <= i < |s.volumes| ==> r.volumes[i] == AlphaStrategyVolumeOf(s.volumes[i])
  {
    Alpha.BuildStrategySpec(
      seq(|s.steps|, i requires 0 <= i < |s.steps| => AlphaStepOf(s.steps[i])),
      seq(|s.parameters|, i requires 0 <= i < |s.parameters| => AlphaParameterOf(s.parameters[i])),
      s.securityContext,
      seq(|s.volumes|, i requires 0 <= i < |s.volumes| => AlphaStrategyVolumeOf(s.volumes[i])))
  }

  /**
   * Specification of the spec part of BuildStrategy.ConvertFrom; `prior` is the
   * receiver's spec before the call, whose security context survives when the
   * v1alpha1 strategy has none.
   */
  function BetaStrategySpecOf(prior: Beta.BuildStrategySpec, s: Alpha.BuildStrategySpec): (r: Beta.BuildStrategySpec)
    ensures |r.steps| == |s.buildSteps|
    ensures forall i :: 0 <= i < |s.buildSteps| ==> r.steps[i] == BetaStepOf(s.buildSteps[i])
    ensures |r.parameters| == |s.parameters|
    ensures forall i :: 0 <= i < |s.parameters| ==> r.parameters[i] == BetaParameterOf(s.parameters[i])
    ensures r.securityContext == if s.securityContext.Some? then s.securityContext else prior.securityContext
    ensures |r.volumes| == |s.volumes|
    ensures forall i :: 0 <= i < |s.volumes| ==> r.volumes[i] == BetaStrategyVolumeOf(s.volumes[i])
  {
    Beta.BuildStrategySpec(
      seq(|s.buildSteps|, i requires 0 <= i < |s.buildSteps| => BetaStepOf(s.buildSteps[i])),
      seq(|s.parameters|, i requires 0 <= i < |s.parameters| => BetaParameterOf(s.parameters[i])),
      if s.securityContext.Some? then s.securityContext else prior.securityContext,
      seq(|s.volumes|, i requires 0 <= i < |s.volumes| => BetaStrategyVolumeOf(s.volumes[i])))
  }

  /** BuildStrategy.ConvertTo: rebuilds the step, parameter and volume lists with append loops. */
  method BuildStrategyConvertTo(src: Beta.BuildStrategy) returns (bs: Alpha.BuildStrategy)
    ensures bs.typeMeta == TypeMeta(AlphaGroupVersion, src.typeMeta.kind)
    ensures bs.meta == src.meta
    ensures bs.spec == AlphaStrategySpecOf(src.spec)
  {
    var steps: seq<Alpha.BuildStep> := [];
    var i := 0;
    while i < |src.spec.steps|
      invariant 0 <= i <= |src.spec.steps|
      invariant |steps| == i
      invariant forall k :: 0 <= k < i ==> steps[k] == AlphaStepOf(src.spec.steps[k])
    {
      var step := src.spec.steps[i];
      var buildStep := Alpha.BuildStep(step.container, map[], None);
      if step.securityContext.Some? {
        buildStep := buildStep.(securityContext := step.securityContext);
      }
      steps := steps + [buildStep];
      i := i + 1;
    }

    var params: seq<Alpha.Parameter> := [];
    var j := 0;
    while j < |src.spec.parameters|
      invariant 0 <= j <= |src.spec.parameters|
      invariant |params| == j
      invariant forall k :: 0 <= k < j ==> params[k] == AlphaParameterOf(src.spec.parameters[k])
    {
      var p := src.spec.parameters[j];
      params := params + [Alpha.Parameter(p.name, p.description, p.paramType, p.default, p.defaults)];
      j := j + 1;
    }

    var securityContext := None;
    if src.spec.securityContext.Some? {
      securityContext := src.spec.securityContext;
    }

    var volumes: seq<Alpha.BuildStrategyVolume> := [];
    var m := 0;
    while m < |src.spec.volumes|
      invariant 0 <= m <= |src.spec.volumes|
      invariant |volumes| == m
      invariant forall k :: 0 <= k < m ==> volumes[k] == AlphaStrategyVolumeOf(src.spec.volumes[k])
    {
      var vol := src.spec.volumes[m];
      volumes := volumes + [Alpha.BuildStrategyVolume(vol.overridable, vol.name, Some(vol.name), vol.volumeSource)];
      m := m + 1;
    }

    var spec := Alpha.BuildStrategySpec(steps, params, securityContext, volumes);
    assert spec == AlphaStrategySpecOf(src.spec);
    bs := Alpha.BuildStrategy(TypeMeta(AlphaGroupVersion, src.typeMeta.kind), src.meta, spec);
  }

  /** BuildStrategy.ConvertFrom: the receiver takes the v1alpha1 object's metadata and the rebuilt lists. */
  method BuildStrategyConvertFrom(dest: Beta.BuildStrategy, br: Alpha.BuildStrategy) returns (r: Beta.BuildStrategy)
    ensures r.typeMeta == TypeMeta(BetaGroupVersion, br.typeMeta.kind)
    ensures r.meta == br.meta
    ensures r.spec == BetaStrategySpecOf(dest.spec, br.spec)
  {
    var steps: seq<Beta.Step> := [];
    var i := 0;
    while i < |br.spec.buildSteps|
      invariant 0 <= i <= |br.spec.buildSteps|
      invariant |steps| == i
      invariant forall k :: 0 <= k < i ==> steps[k] == BetaStepOf(br.spec.buildSteps[k])
    {
      var brStep := br.spec.buildSteps[i];
      var step := Beta.Step(brStep.container, None);
      if brStep.securityContext.Some? {
        step := step.(securityContext := brStep.securityContext);
      }
      steps := steps + [step];
      i := i + 1;
    }

    var params: seq<Beta.Parameter> := [];
    var j := 0;
    while j < |br.spec.parameters|
      invariant 0 <= j <= |br.spec.parameters|
      invariant |params| == j
      invariant forall k :: 0 <= k < j ==> params[k] == BetaParameterOf(br.spec.parameters[k])
    {
      var p := br.spec.parameters[j];
      params := params + [Beta.Parameter(p.name, p.description, p.paramType, p.default, p.defaults)];
      j := j + 1;
    }

    var securityContext := dest.spec.securityContext;
    if br.spec.securityContext.Some? {
      securityContext := br.spec.securityContext;
    }

    var volumes: seq<Beta.BuildStrategyVolume> := [];
    var m := 0;
    while m < |br.spec.volumes|
      invariant 0 <= m <= |br.spec.volumes|
      invariant |volumes| == m
      invariant forall k :: 0 <= k < m ==> volumes[k] == BetaStrategyVolumeOf(br.spec.volumes[k])
    {
      var vol := br.spec.volumes[m];
      volumes := volumes + [Beta.BuildStrategyVolume(vol.overridable, vol.name, Some(vol.name), vol.volumeSource)];
      m := m + 1;
    }

    var spec := Beta.BuildStrategySpec(steps, params, securityContext, volumes);
    assert spec == BetaStrategySpecOf(dest.spec, br.spec);
    r := Beta.BuildStrategy(TypeMeta(BetaGroupVersion, br.typeMeta.kind), br.meta, spec);
  }

  /** Every strategy volume's description is its own name: the form both converters produce. */
  predicate BetaDescriptionsAreNames(s: Beta.BuildStrategySpec) {
    forall i :: 0 <= i < |s.volumes| ==> s.volumes[i].description == Some(s.volumes[i].name)
  }

  predicate AlphaDescriptionsAreNames(s: Alpha.BuildStrategySpec) {
    forall i :: 0 <= i < |s.volumes| ==> s.volumes[i].description == Some(s.volumes[i].name)
  }

  /**
   * A v1beta1 strategy spec survives v1beta1 -> v1alpha1 -> v1beta1 exactly when every
   * volume's description is its name, and its security context is present or the
   * receiver of the way back has none either.
   */
  lemma BetaStrategySpecRoundTrip(prior: Beta.BuildStrategySpec, s: Beta.BuildStrategySpec)
    ensures BetaStrategySpecOf(prior, AlphaStrategySpecOf(s)) == s <==>
      BetaDescriptionsAreNames(s) && (s.securityContext.Some? || prior.securityContext.None?)
  {
    var r := BetaStrategySpecOf(prior, AlphaStrategySpecOf(s));
    if BetaDescriptionsAreNames(s) && (s.securityContext.Some? || prior.securityContext.None?) {
      assert r.steps == s.steps;
      assert r.parameters == s.parameters;
      assert r.volumes == s.volumes;
    }
    if r == s {
      forall i | 0 <= i < |s.volumes| ensures s.volumes[i].description == Some(s.volumes[i].name) {
        assert r.volumes[i] == s.volumes[i];
      }
    }
  }

  /** Every step of a v1alpha1 strategy sets no container field beyond the ones v1beta1 steps have. */
  predicate AlphaStepsAreBare(s: Alpha.BuildStrategySpec) {
    forall i :: 0 <= i < |s.buildSteps| ==> s.buildSteps[i].otherFields == map[]
  }

  /** A v1alpha1 strategy spec survives v1alpha1 -> v1beta1 -> v1alpha1 exactly when every
      volume's description is its name, no step sets a container field that v1beta1 steps
      lack, and its security context is present or the receiver had none. */
  lemma AlphaStrategySpecRoundTrip(prior: Beta.BuildStrategySpec, s: Alpha.BuildStrategySpec)
    ensures AlphaStrategySpecOf(BetaStrategySpecOf(prior, s)) == s
      <==> AlphaDescriptionsAreNames(s) && AlphaStepsAreBare(s) && (s.securityContext.Some? || prior.securityContext.None?)
  {
    var r := AlphaStrategySpecOf(BetaStrategySpecOf(prior, s));
    if AlphaDescriptionsAreNames(s) && AlphaStepsAreBare(s) && (s.securityContext.Some? || prior.securityContext.None?) {
      assert r.buildSteps == s.buildSteps;
      assert r.parameters == s.parameters;
      assert r.volumes == s.volumes;
    }
    if r == s {
      forall i | 0 <= i < |s.volumes| ensures s.volumes[i].description == Some(s.volumes[i].name) {
        assert r.volumes[i] == s.volumes[i];
      }
      forall i | 0 <= i < |s.buildSteps| ensures s.buildSteps[i].otherFields == map[] {
        assert r.buildSteps[i] == s.buildSteps[i];
      }
    }
  }
}
