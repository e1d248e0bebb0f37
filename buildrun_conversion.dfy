// Conversion of a BuildRun between shipwright.io/v1alpha1 and shipwright.io/v1beta1
// (pkg/apis/build/v1beta1/buildrun_conversion.go): the spec in both directions and the
// projection of a v1alpha1 status onto a v1beta1 status.

module BuildRunConversion {
  import opened Wrappers
  import opened Kube
  import opened Shared
  import Alpha
  import Beta
  import opened BuildConversion

  /** The zero value of a v1alpha1 BuildRun status: `BuildRun.ConvertTo` leaves the status so. */
  const AlphaZeroBuildRunStatus := Alpha.BuildRunStatus([], None, [], None, None, None, None)

  // ---------------------------------------------------------------------------
  // v1beta1 -> v1alpha1
  // ---------------------------------------------------------------------------

  /**
   * The nil dereferences of BuildRun.ConvertTo: `Spec.Build` is read through its
   * pointer, and an embedded build spec and the parameters go through the Build
   * converters with their own preconditions.
   */
  predicate CanConvertBetaRunSpec(s: Beta.BuildRunSpec) {
    && s.build.Some?
    && (s.build.value.build.Some? ==> CanConvertBetaSpec(s.build.value.build.value))
    && (forall p :: p in s.paramValues ==> CanConvertBetaParam(p))
  }

  /** The output of BuildRun.ConvertTo: a fresh image with the push secret as credentials. */
  function AlphaRunOutputOf(o: Option<Beta.Image>): (r: Option<Alpha.Image>)
    ensures r.Some? <==> o.Some?
    ensures o.Some? ==>
      && r.value.image == o.value.image
      && r.value.annotations == o.value.annotations
      && r.value.labels == o.value.labels
      && r.value.insecure.None?
      && (r.value.credentials.Some? <==> o.value.pushSecret.Some?)
      && (o.value.pushSecret.Some? ==> r.value.credentials.value.name == o.value.pushSecret.value)
  {
    match o
    case None => None
    case Some(img) =>
      Some(Alpha.Image(img.image, None,
        if img.pushSecret.Some? then Some(LocalObjectReference(img.pushSecret.value)) else None,
        img.annotations, img.labels))
  }

  /** Specification of the spec part of BuildRun.ConvertTo. */
  function AlphaBuildRunSpecOf(acc: Accessors, s: Beta.BuildRunSpec): (r: Alpha.BuildRunSpec)
    requires CanConvertBetaRunSpec(s)
    ensures r.buildSpec.Some? <==> s.build.value.build.Some?
    ensures r.buildRef.Some? <==> s.build.value.build.None?
    ensures r.buildSpec.Some? ==> r.buildSpec.value == AlphaBuildSpecOf(acc, Alpha.ZeroBuildSpec, s.build.value.build.value)
    ensures r.buildRef.Some? ==> r.buildRef.value.name == s.build.value.name
    ensures r.serviceAccount == Some(Alpha.ServiceAccount(s.serviceAccount))
    ensures r.timeout == s.timeout && r.state == s.state && r.env == s.env && r.retention == s.retention
    ensures r.paramValues == AlphaParamValuesOf(s.paramValues)
    ensures r.output == AlphaRunOutputOf(s.output)
    ensures r.volumes == AlphaVolumesOf(s.volumes)
  {
    var ref := s.build.value;
    Alpha.BuildRunSpec(
      if ref.build.Some? then Some(AlphaBuildSpecOf(acc, Alpha.ZeroBuildSpec, ref.build.value)) else None,
      if ref.build.Some? then None else Some(Alpha.BuildRef(ref.name)),
      Some(Alpha.ServiceAccount(s.serviceAccount)),
      s.timeout,
      AlphaParamValuesOf(s.paramValues),
      AlphaRunOutputOf(s.output),
      s.state,
      s.env,
      s.retention,
      AlphaVolumesOf(s.volumes))
  }

  /**
   * BuildRun.ConvertTo: a v1alpha1 BuildRun with the object's metadata, the v1alpha1
   * group version and the converted spec, built field by field with append loops.
   * The status is not converted.
   */
  method BuildRunConvertTo(acc: Accessors, src: Beta.BuildRun) returns (bs: Alpha.BuildRun)
    requires CanConvertBetaRunSpec(src.spec)
    ensures bs.typeMeta == TypeMeta(AlphaGroupVersion, src.typeMeta.kind)
    ensures bs.meta == src.meta
    ensures bs.spec == AlphaBuildRunSpecOf(acc, src.spec)
    ensures bs.status == AlphaZeroBuildRunStatus
  {
    var spec := Alpha.BuildRunSpec(None, None, None, None, [], None, None, [], None, []);
    var ref := src.spec.build.value;
    if ref.build.Some? {
      var newBuildSpec := BuildSpecConvertTo(acc, Alpha.ZeroBuildSpec, ref.build.value);
      spec := spec.(buildSpec := Some(newBuildSpec));
    } else {
      spec := spec.(buildRef := Some(Alpha.BuildRef(ref.name)));
    }
    spec := spec.(serviceAccount := Some(Alpha.ServiceAccount(src.spec.serviceAccount)), timeout := src.spec.timeout);

    var params: seq<Alpha.ParamValue> := [];
    var i := 0;
    while i < |src.spec.paramValues|
      invariant 0 <= i <= |src.spec.paramValues|
      invariant |params| == i
      invariant forall k :: 0 <= k < i ==> params[k] == AlphaParamValueOf(src.spec.paramValues[k])
    {
      var p := ConvertParamValueToAlpha(src.spec.paramValues[i]);
      params := params + [p];
      i := i + 1;
    }
    assert params == AlphaParamValuesOf(src.spec.paramValues);
    spec := spec.(paramValues := params);

    if src.spec.output.Some? {
      var o := src.spec.output.value;
      var output := Alpha.Image(o.image, None, None, o.annotations, o.labels);
      if o.pushSecret.Some? {
        output := output.(credentials := Some(LocalObjectReference(o.pushSecret.value)));
      }
      spec := spec.(output := Some(output));
    }

    spec := spec.(state := src.spec.state, env := src.spec.env, retention := src.spec.retention);

    var volumes: seq<Alpha.BuildVolume> := [];
    var j := 0;
    while j < |src.spec.volumes|
      invariant 0 <= j <= |src.spec.volumes|
      invariant |volumes| == j
      invariant forall k :: 0 <= k < j ==> volumes[k] == AlphaVolumeOf(src.spec.volumes[k])
    {
      volumes := volumes + [Alpha.BuildVolume(src.spec.volumes[j].name, None, src.spec.volumes[j].volumeSource)];
      j := j + 1;
    }
    assert volumes == AlphaVolumesOf(src.spec.volumes);
    spec := spec.(volumes := volumes);

    bs := Alpha.BuildRun(TypeMeta(AlphaGroupVersion, src.typeMeta.kind), src.meta, spec, AlphaZeroBuildRunStatus);
  }

  // ---------------------------------------------------------------------------
  // v1alpha1 -> v1beta1
  // ---------------------------------------------------------------------------

  /**
   * The preconditions of BuildRunSpec.ConvertFrom: the parameters go through
   * convertBetaParamValue, and the volumes are written into the destination's
   * existing list by index, which must be at least as long as the source's.
   */
  predicate CanConvertAlphaRunSpec(dest: Beta.BuildRunSpec, orig: Alpha.BuildRunSpec) {
    && (forall p :: p in orig.paramValues ==> CanConvertAlphaParam(p))
    && |dest.volumes| >= |orig.volumes|
  }

  /** The output of BuildRunSpec.ConvertFrom: always a fresh image, whose annotations and labels stay empty. */
  function BetaRunOutputOf(o: Option<Alpha.Image>): (r: Beta.Image)
    ensures r.image == (if o.Some? then o.value.image else "")
    ensures r.pushSecret.Some? <==> o.Some? && o.value.credentials.Some?
    ensures r.pushSecret.Some? ==> r.pushSecret.value == o.value.credentials.value.name
    ensures r.insecure.None? && r.annotations == map[] && r.labels == map[]
  {
    Beta.Image(
      if o.Some? then o.value.image else "",
      None,
      if o.Some? && o.value.credentials.Some? then Some(o.value.credentials.value.name) else None,
      map[], map[])
  }

  /**
   * Specification of BuildRunSpec.ConvertFrom; `dest` is the receiver before the call.
   * The referenced build is always fresh and never holds an embedded spec; the
   * service account keeps the receiver's value when the source has none; the first
   * |orig.volumes| receiver volumes are overwritten and the rest are kept.
   */
  function BetaBuildRunSpecOf(dest: Beta.BuildRunSpec, orig: Alpha.BuildRunSpec): (r: Beta.BuildRunSpec)
    requires CanConvertAlphaRunSpec(dest, orig)
    ensures r.build.Some? && r.build.value.build.None?
    ensures r.build.value.name == (if orig.buildRef.Some? then orig.buildRef.value.name else "")
    ensures r.serviceAccount == (if orig.serviceAccount.Some? then orig.serviceAccount.value.name else dest.serviceAccount)
    ensures r.timeout == orig.timeout && r.state == orig.state && r.env == orig.env && r.retention == orig.retention
    ensures r.paramValues == BetaParamValuesOf(orig.paramValues)
    ensures r.output == Some(BetaRunOutputOf(orig.output))
    ensures |r.volumes| == |dest.volumes|
    ensures forall i :: 0 <= i < |orig.volumes| ==> r.volumes[i] == BetaVolumeOf(orig.volumes[i])
    ensures forall i :: |orig.volumes| <= i < |dest.volumes| ==> r.volumes[i] == dest.volumes[i]
  {
    Beta.BuildRunSpec(
      Some(Beta.ReferencedBuild(None, if orig.buildRef.Some? then orig.buildRef.value.name else "")),
      if orig.serviceAccount.Some? then orig.serviceAccount.value.name else dest.serviceAccount,
      orig.timeout,
      BetaParamValuesOf(orig.paramValues),
      Some(BetaRunOutputOf(orig.output)),
      orig.state,
      orig.env,
      orig.retention,
      BetaVolumesOf(orig.volumes) + dest.volumes[|orig.volumes|..])
  }

  /** BuildRunSpec.ConvertFrom: assigns the receiver's fields one by one and overwrites its volumes in place. */
  method BuildRunSpecConvertFrom(dest: Beta.BuildRunSpec, orig: Alpha.BuildRunSpec) returns (r: Beta.BuildRunSpec)
    requires CanConvertAlphaRunSpec(dest, orig)
    ensures r == BetaBuildRunSpecOf(dest, orig)
  {
    r := dest;
    r := r.(build := Some(Beta.ReferencedBuild(None, "")));
    // The guard on the freshly allocated `Build.Build` never holds, so an embedded
    // v1alpha1 build spec is not converted.
    if orig.buildRef.Some? {
      r := r.(build := Some(r.build.value.(name := orig.buildRef.value.name)));
    }
    if orig.serviceAccount.Some? {
      r := r.(serviceAccount := orig.serviceAccount.value.name);
    }
    r := r.(timeout := orig.timeout);

    var params: seq<Beta.ParamValue> := [];
    var i := 0;
    while i < |orig.paramValues|
      invariant 0 <= i <= |orig.paramValues|
      invariant |params| == i
      invariant forall k :: 0 <= k < i ==> params[k] == BetaParamValueOf(orig.paramValues[k])
    {
      var p := ConvertBetaParamValue(orig.paramValues[i]);
      params := params + [p];
      i := i + 1;
    }
    assert params == BetaParamValuesOf(orig.paramValues);
    r := r.(paramValues := params);

    var output := Beta.Image("", None, None, map[], map[]);
    if orig.output.Some? {
      output := output.(image := orig.output.value.image);
    }
    if orig.output.Some? && orig.output.value.credentials.Some? {
      output := output.(pushSecret := Some(orig.output.value.credentials.value.name));
    }
    r := r.(output := Some(output), state := orig.state, env := orig.env, retention := orig.retention);

    var volumes := r.volumes;
    var j := 0;
    while j < |orig.volumes|
      invariant 0 <= j <= |orig.volumes|
      invariant |volumes| == |dest.volumes|
      invariant forall k :: 0 <= k < j ==> volumes[k] == BetaVolumeOf(orig.volumes[k])
      invariant forall k :: j <= k < |dest.volumes| ==> volumes[k] == dest.volumes[k]
    {
      volumes := volumes[j := volumes[j].(name := orig.volumes[j].name, volumeSource := orig.volumes[j].volumeSource)];
      j := j + 1;
    }
    assert volumes == BetaVolumesOf(orig.volumes) + dest.volumes[|orig.volumes|..];
    r := r.(volumes := volumes);
  }

  /** The v1alpha1 -> v1beta1 projection of one status source: the bundle result becomes the OCI artifact result. */
  function BetaSourceResultOf(s: Alpha.SourceResult): (r: Beta.SourceResult)
    ensures r.name == s.name && r.git == s.git && r.ociArtifact == s.bundle
  {
    Beta.SourceResult(s.name, s.git, s.bundle)
  }

  /** The preconditions of BuildRun.ConvertFrom: the spec's, and the Build converter's for a status build spec. */
  predicate CanConvertAlphaRun(dest: Beta.BuildRun, br: Alpha.BuildRun) {
    && CanConvertAlphaRunSpec(dest.spec, br.spec)
    && (br.status.buildSpec.Some? ==> CanConvertAlphaSpec(br.status.buildSpec.value))
  }

  /**
   * Specification of the status projection of BuildRun.ConvertFrom; `prior` is the
   * receiver's status before the call, of which only the failure details survive.
   */
  function BetaBuildRunStatusOf(acc: Accessors, prior: Beta.BuildRunStatus, st: Alpha.BuildRunStatus): (r: Beta.BuildRunStatus)
    requires st.buildSpec.Some? ==> CanConvertAlphaSpec(st.buildSpec.value)
    ensures |r.sources| == |st.sources|
    ensures forall i :: 0 <= i < |st.sources| ==> r.sources[i] == BetaSourceResultOf(st.sources[i])
    ensures r.conditions == st.conditions
    ensures r.output == st.output
    ensures r.taskRunName == st.latestTaskRunRef
    ensures r.startTime == st.startTime && r.completionTime == st.completionTime
    ensures r.buildSpec.Some?
    ensures r.buildSpec.value ==
      if st.buildSpec.Some? then BetaBuildSpecOf(acc, Beta.ZeroBuildSpec, st.buildSpec.value) else Beta.ZeroBuildSpec
    ensures r.failureDetails == prior.failureDetails
  {
    Beta.BuildRunStatus(
      seq(|st.sources|, i requires 0 <= i < |st.sources| => BetaSourceResultOf(st.sources[i])),
      st.output,
      st.conditions,
      st.latestTaskRunRef,
      st.startTime,
      st.completionTime,
      Some(if st.buildSpec.Some? then BetaBuildSpecOf(acc, Beta.ZeroBuildSpec, st.buildSpec.value) else Beta.ZeroBuildSpec),
      prior.failureDetails)
  }

  /**
   * BuildRun.ConvertFrom: the receiver takes the v1alpha1 object's metadata, the
   * v1beta1 group version, the converted spec and the projected status, whose source
   * and condition lists are built by append loops.
   */
  method BuildRunConvertFrom(acc: Accessors, dest: Beta.BuildRun, br: Alpha.BuildRun) returns (r: Beta.BuildRun)
    requires CanConvertAlphaRun(dest, br)
    ensures r.typeMeta == TypeMeta(BetaGroupVersion, br.typeMeta.kind)
    ensures r.meta == br.meta
    ensures r.spec == BetaBuildRunSpecOf(dest.spec, br.spec)
    ensures r.status == BetaBuildRunStatusOf(acc, dest.status, br.status)
  {
    var spec := BuildRunSpecConvertFrom(dest.spec, br.spec);

    var sources: seq<Beta.SourceResult> := [];
    var i := 0;
    while i < |br.status.sources|
      invariant 0 <= i <= |br.status.sources|
      invariant |sources| == i
      invariant forall k :: 0 <= k < i ==> sources[k] == BetaSourceResultOf(br.status.sources[k])
    {
      var s := br.status.sources[i];
      sources := sources + [Beta.SourceResult(s.name, s.git, s.bundle)];
      i := i + 1;
    }

    var conditions: seq<Condition> := [];
    var j := 0;
    while j < |br.status.conditions|
      invariant 0 <= j <= |br.status.conditions|
      invariant conditions == br.status.conditions[..j]
    {
      var c := br.status.conditions[j];
      conditions := conditions + [Condition(c.condType, c.status, c.lastTransitionTime, c.reason, c.message)];
      j := j + 1;
    }
    assert conditions == br.status.conditions;

    var buildBeta := Beta.ZeroBuildSpec;
    if br.status.buildSpec.Some? {
      buildBeta := BuildSpecConvertFrom(acc, Beta.ZeroBuildSpec, br.status.buildSpec.value);
    }

    var status := Beta.BuildRunStatus(sources, br.status.output, conditions, br.status.latestTaskRunRef,
      br.status.startTime, br.status.completionTime, Some(buildBeta), dest.status.failureDetails);
    r := Beta.BuildRun(TypeMeta(BetaGroupVersion, br.typeMeta.kind), br.meta, spec, status);
  }

  // ---------------------------------------------------------------------------
  // Properties across the two directions
  // ---------------------------------------------------------------------------

  /** A v1alpha1 BuildRun spec as FromUnstructured reads it: its parameters, and those of an embedded build spec, are decoded. */
  function AlphaDecodedRunSpec(a: Alpha.BuildRunSpec): (r: Alpha.BuildRunSpec)
    ensures r.paramValues == AlphaDecodedParams(a.paramValues)
    ensures r.buildSpec == (if a.buildSpec.Some? then Some(AlphaDecodedSpec(a.buildSpec.value)) else None)
    ensures r.(paramValues := a.paramValues, buildSpec := a.buildSpec) == a
  {
    a.(paramValues := AlphaDecodedParams(a.paramValues),
       buildSpec := if a.buildSpec.Some? then Some(AlphaDecodedSpec(a.buildSpec.value)) else None)
  }

  /** A v1beta1 BuildRun spec as FromUnstructured reads it. */
  function BetaDecodedRunSpec(b: Beta.BuildRunSpec): (r: Beta.BuildRunSpec)
    ensures r.paramValues == BetaDecodedParams(b.paramValues)
    ensures r.build.Some? <==> b.build.Some?
    ensures b.build.Some? ==> r.build.value.name == b.build.value.name
    ensures b.build.Some? ==> r.build.value.build == (if b.build.value.build.Some? then Some(BetaDecodedSpec(b.build.value.build.value)) else None)
    ensures r.(paramValues := b.paramValues, build := b.build) == b
  {
    var build := if b.build.Some? && b.build.value.build.Some?
      then Some(b.build.value.(build := Some(BetaDecodedSpec(b.build.value.build.value))))
      else b.build;
    b.(paramValues := BetaDecodedParams(b.paramValues), build := build)
  }

  /** The BuildRun specs of the representable subset: a build referenced by name, and an
      output with `Insecure`, annotations and labels unset, which the way back does not carry. */
  predicate BetaRunSpecRoundTrips(s: Beta.BuildRunSpec) {
    && CanConvertBetaRunSpec(s)
    && s.build.value.build.None?
    && s.output.Some?
    && s.output.value.insecure.None? && s.output.value.annotations == map[] && s.output.value.labels == map[]
  }

  /**
   * A BuildRun spec of the representable subset survives v1beta1 -> v1alpha1 -> v1beta1
   * when the receiver of the way back has as many volumes as the original and each side
   * is read back as the webhook reads it. With only single-valued parameters the reading
   * is not needed.
   */
  lemma BetaRunSpecRoundTrip(acc: Accessors, s: Beta.BuildRunSpec, dest: Beta.BuildRunSpec)
    requires BetaRunSpecRoundTrips(s)
    requires |dest.volumes| == |s.volumes|
    ensures CanConvertAlphaRunSpec(dest, AlphaDecodedRunSpec(AlphaBuildRunSpecOf(acc, s)))
    ensures BetaDecodedRunSpec(BetaBuildRunSpecOf(dest, AlphaDecodedRunSpec(AlphaBuildRunSpecOf(acc, s)))) == s
    ensures (forall p :: p in s.paramValues ==> p.single.value.value.Some?) ==>
              && CanConvertAlphaRunSpec(dest, AlphaBuildRunSpecOf(acc, s))
              && BetaBuildRunSpecOf(dest, AlphaBuildRunSpecOf(acc, s)) == s
  {
    var a := AlphaDecodedRunSpec(AlphaBuildRunSpecOf(acc, s));
    forall p | p in a.paramValues ensures CanConvertAlphaParam(p) {
      var i :| 0 <= i < |a.paramValues| && a.paramValues[i] == p;
      assert s.paramValues[i] in s.paramValues;
      BetaParamValueRoundTrip(s.paramValues[i]);
    }
    var b := BetaDecodedRunSpec(BetaBuildRunSpecOf(dest, a));
    assert b.paramValues == s.paramValues by {
      forall i | 0 <= i < |s.paramValues| ensures b.paramValues[i] == s.paramValues[i] {
        assert s.paramValues[i] in s.paramValues;
        BetaParamValueRoundTrip(s.paramValues[i]);
      }
    }
    assert b.volumes == s.volumes;
    assert b.output == s.output;
    assert b.build == s.build;
    if forall p :: p in s.paramValues ==> p.single.value.value.Some? {
      SingleValuedParamsDecoded(s.paramValues);
    }
  }

  /**
   * An embedded v1alpha1 build spec does not survive v1alpha1 -> v1beta1 -> v1alpha1:
   * the BuildRun comes back referring to a build by name (the empty name when it had
   * no reference).
   */
  lemma AlphaEmbeddedSpecLost(acc: Accessors, dest: Beta.BuildRunSpec, orig: Alpha.BuildRunSpec)
    requires CanConvertAlphaRunSpec(dest, orig)
    requires orig.buildSpec.Some?
    ensures CanConvertBetaRunSpec(BetaDecodedRunSpec(BetaBuildRunSpecOf(dest, orig)))
    ensures var back := AlphaBuildRunSpecOf(acc, BetaDecodedRunSpec(BetaBuildRunSpecOf(dest, orig)));
      && back.buildSpec.None?
      && back.buildRef == Some(Alpha.BuildRef(if orig.buildRef.Some? then orig.buildRef.value.name else ""))
      && back != orig
  {
    var b := BetaDecodedRunSpec(BetaBuildRunSpecOf(dest, orig));
    forall p | p in b.paramValues ensures CanConvertBetaParam(p) {
      var i :| 0 <= i < |b.paramValues| && b.paramValues[i] == p;
      assert orig.paramValues[i] in orig.paramValues;
      AlphaParamValueRoundTrip(orig.paramValues[i]);
    }
  }
}
