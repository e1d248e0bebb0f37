// Conversion of a Build between shipwright.io/v1alpha1 and shipwright.io/v1beta1
// (pkg/apis/build/v1beta1/build_conversion.go).
//
// Each converter that the Go code writes as a loop over a list is a method with a
// while loop, proved equal to a specification function; the functions carry the
// properties of the conversion, and the lemmas relate the two directions.
//
// Go dereferences some optional fields unconditionally; a `requires` states each of
// these nil-pointer preconditions (a caller that violates it makes the Go code panic).

module BuildConversion {
  import opened Wrappers
  import opened Kube
  import opened Shared
  import Alpha
  import Beta

  const BetaGroupVersion := "shipwright.io/v1beta1"
  const AlphaGroupVersion := "shipwright.io/v1alpha1"

  /** The trigger type whose branches the converters copy into the GitHub payload. */
  const GitHubWebHookTrigger := "GitHub"

  /**
   * Accessors of the API types that the converters call but that are not part of
   * this model: `BuildSpec.StrategyName()` and `TriggerWhen.GetBranches(type)` of
   * each generation.
   */
  datatype Accessors = Accessors(
    alphaStrategyName: Alpha.BuildSpec -> string,
    betaStrategyName: Beta.BuildSpec -> string,
    alphaBranches: (Alpha.TriggerWhen, string) -> seq<string>,
    betaBranches: (Beta.TriggerWhen, string) -> seq<string>)

  // ---------------------------------------------------------------------------
  // Source
  // ---------------------------------------------------------------------------

  /** A v1beta1 Source populates exactly the variant its `Type` tag names. */
  predicate ExactlyOneVariant(s: Beta.Source) {
    || (s.sourceType == Beta.OCIArtifactType && s.ociArtifact.Some? && s.gitSource.None?)
    || (s.sourceType == Beta.GitType && s.gitSource.Some? && s.ociArtifact.None?)
  }

  /** The v1alpha1 Source -> v1beta1 Source part of BuildSpec.ConvertFrom. */
  function BetaSourceOf(s: Alpha.Source): (r: Beta.Source)
    requires s.bundleContainer.Some? ==> s.credentials.Some?
    ensures ExactlyOneVariant(r)
    ensures r.sourceType == Beta.OCIArtifactType <==> s.bundleContainer.Some?
    ensures s.bundleContainer.Some? ==>
      r.ociArtifact == Some(Beta.OCIArtifact(s.bundleContainer.value.image, s.bundleContainer.value.prune, Some(s.credentials.value.name)))
    ensures s.bundleContainer.None? ==>
      && r.gitSource.Some?
      && r.gitSource.value.url == s.url
      && r.gitSource.value.revision == s.revision
      && (r.gitSource.value.cloneSecret.Some? <==> s.credentials.Some?)
      && (s.credentials.Some? ==> r.gitSource.value.cloneSecret.value == s.credentials.value.name)
    ensures r.contextDir == s.contextDir
  {
    match s.bundleContainer
    case Some(bundle) =>
      Beta.Source(Beta.OCIArtifactType, None,
        Some(Beta.OCIArtifact(bundle.image, bundle.prune, Some(s.credentials.value.name))), s.contextDir)
    case None =>
      var cloneSecret := if s.credentials.Some? then Some(s.credentials.value.name) else None;
      Beta.Source(Beta.GitType, Some(Beta.Git(s.url, s.revision, cloneSecret)), None, s.contextDir)
  }

  /** The nil dereferences of getAlphaBuildSource: an OCI source must carry its artifact and pull secret. */
  predicate CanConvertBetaSource(s: Beta.Source) {
    s.sourceType == Beta.OCIArtifactType ==> s.ociArtifact.Some? && s.ociArtifact.value.pullSecret.Some?
  }

  /**
   * getAlphaBuildSource: v1beta1 Source -> v1alpha1 Source. The single credentials
   * slot takes the secret of the selected variant, and only when its name is not empty.
   */
  function GetAlphaBuildSource(s: Beta.Source): (r: Alpha.Source)
    requires CanConvertBetaSource(s)
    ensures r.bundleContainer.Some? <==> s.sourceType == Beta.OCIArtifactType
    ensures s.sourceType == Beta.OCIArtifactType ==>
      && r.bundleContainer == Some(Alpha.BundleContainer(s.ociArtifact.value.image, s.ociArtifact.value.prune))
      && r.url.None? && r.revision.None?
      && (r.credentials.Some? <==> s.ociArtifact.value.pullSecret.value != "")
      && (r.credentials.Some? ==> r.credentials.value.name == s.ociArtifact.value.pullSecret.value)
    ensures s.sourceType != Beta.OCIArtifactType ==>
      && r.url == (if s.gitSource.Some? then s.gitSource.value.url else None)
      && r.revision == (if s.gitSource.Some? then s.gitSource.value.revision else None)
      && (r.credentials.Some? <==>
            s.gitSource.Some? && s.gitSource.value.cloneSecret.Some? && s.gitSource.value.cloneSecret.value != "")
      && (r.credentials.Some? ==> r.credentials.value.name == s.gitSource.value.cloneSecret.value)
    ensures r.contextDir == s.contextDir
  {
    var isOci := s.sourceType == Beta.OCIArtifactType;
    var credentials :=
      if isOci then s.ociArtifact.value.pullSecret.value
      else if s.gitSource.Some? && s.gitSource.value.cloneSecret.Some? then s.gitSource.value.cloneSecret.value
      else "";
    var bundle := if isOci then Some(Alpha.BundleContainer(s.ociArtifact.value.image, s.ociArtifact.value.prune)) else None;
    var url := if !isOci && s.gitSource.Some? then s.gitSource.value.url else None;
    var revision := if !isOci && s.gitSource.Some? then s.gitSource.value.revision else None;
    Alpha.Source(bundle, url, revision, s.contextDir,
      if credentials != "" then Some(LocalObjectReference(credentials)) else None)
  }

  /** The v1beta1 sources that survive v1beta1 -> v1alpha1 -> v1beta1 unchanged. */
  predicate BetaSourceRoundTrips(s: Beta.Source) {
    || (&& s.sourceType == Beta.GitType && s.gitSource.Some? && s.ociArtifact.None?
        && (s.gitSource.value.cloneSecret.Some? ==> s.gitSource.value.cloneSecret.value != ""))
    || (&& s.sourceType == Beta.OCIArtifactType && s.ociArtifact.Some? && s.gitSource.None?
        && s.ociArtifact.value.pullSecret.Some? && s.ociArtifact.value.pullSecret.value != "")
  }

  /** A v1beta1 source comes back unchanged from a round trip through v1alpha1 exactly when it is a Git source
      with a non-empty or absent clone secret, or an OCI source with a non-empty pull secret. */
  lemma BetaSourceRoundTrip(s: Beta.Source)
    requires CanConvertBetaSource(s)
    ensures var a := GetAlphaBuildSource(s);
      (&& (a.bundleContainer.Some? ==> a.credentials.Some?)
       && BetaSourceOf(a) == s) <==> BetaSourceRoundTrips(s)
  {
    var a := GetAlphaBuildSource(s);
    if BetaSourceRoundTrips(s) {
      var b := BetaSourceOf(a);
      if s.sourceType == Beta.GitType {
        assert b.gitSource.value == s.gitSource.value;
      } else {
        assert b.ociArtifact.value == s.ociArtifact.value;
      }
    }
  }

  /** The v1alpha1 sources that survive v1alpha1 -> v1beta1 -> v1alpha1 unchanged. */
  predicate AlphaSourceRoundTrips(s: Alpha.Source) {
    && (s.credentials.Some? ==> s.credentials.value.name != "")
    && (s.bundleContainer.Some? ==> s.credentials.Some? && s.url.None? && s.revision.None?)
  }

  lemma AlphaSourceRoundTrip(s: Alpha.Source)
    requires s.bundleContainer.Some? ==> s.credentials.Some?
    ensures GetAlphaBuildSource(BetaSourceOf(s)) == s <==> AlphaSourceRoundTrips(s)
  {
  }

  // ---------------------------------------------------------------------------
  // ParamValue
  // ---------------------------------------------------------------------------

  /**
   * The nil dereferences of ParamValue.convertToAlpha: the embedded single value is
   * read through its pointer, and a config map or secret reference is written into
   * the destination's embedded value, which is allocated only when `Value` is set.
   */
  predicate CanConvertBetaParam(p: Beta.ParamValue) {
    && p.single.Some?
    && (p.single.value.configMapValue.Some? || p.single.value.secretValue.Some? ==> p.single.value.value.Some?)
  }

  /** The same nil dereferences in convertBetaParamValue, on the v1alpha1 side. */
  predicate CanConvertAlphaParam(p: Alpha.ParamValue) {
    && p.single.Some?
    && (p.single.value.configMapValue.Some? || p.single.value.secretValue.Some? ==> p.single.value.value.Some?)
  }

  function AlphaSingleValueOf(v: Beta.SingleValue): (r: Alpha.SingleValue)
    ensures r.value == v.value && r.configMapValue == v.configMapValue && r.secretValue == v.secretValue
  {
    Alpha.SingleValue(v.value, v.configMapValue, v.secretValue)
  }

  function BetaSingleValueOf(v: Alpha.SingleValue): (r: Beta.SingleValue)
    ensures r.value == v.value && r.configMapValue == v.configMapValue && r.secretValue == v.secretValue
  {
    Beta.SingleValue(v.value, v.configMapValue, v.secretValue)
  }

  /** Specification of ParamValue.convertToAlpha. */
  function AlphaParamValueOf(p: Beta.ParamValue): (r: Alpha.ParamValue)
    requires CanConvertBetaParam(p)
    ensures r.name == p.name
    ensures r.single.Some? <==> p.single.value.value.Some?
    ensures r.single.Some? ==> r.single.value == AlphaSingleValueOf(p.single.value)
    ensures |r.values| == |p.values|
    ensures forall i :: 0 <= i < |p.values| ==> r.values[i] == AlphaSingleValueOf(p.values[i])
  {
    var single := if p.single.value.value.Some? then Some(AlphaSingleValueOf(p.single.value)) else None;
    Alpha.ParamValue(single, p.name, seq(|p.values|, i requires 0 <= i < |p.values| => AlphaSingleValueOf(p.values[i])))
  }

  /** Specification of convertBetaParamValue. */
  function BetaParamValueOf(p: Alpha.ParamValue): (r: Beta.ParamValue)
    requires CanConvertAlphaParam(p)
    ensures r.name == p.name
    ensures r.single.Some? <==> p.single.value.value.Some?
    ensures r.single.Some? ==> r.single.value == BetaSingleValueOf(p.single.value)
    ensures |r.values| == |p.values|
    ensures forall i :: 0 <= i < |p.values| ==> r.values[i] == BetaSingleValueOf(p.values[i])
  {
    var single := if p.single.value.value.Some? then Some(BetaSingleValueOf(p.single.value)) else None;
    Beta.ParamValue(single, p.name, seq(|p.values|, i requires 0 <= i < |p.values| => BetaSingleValueOf(p.values[i])))
  }

  /** ParamValue.convertToAlpha: fills a fresh v1alpha1 ParamValue, appending the list values one by one. */
  method ConvertParamValueToAlpha(p: Beta.ParamValue) returns (dest: Alpha.ParamValue)
    requires CanConvertBetaParam(p)
    ensures dest == AlphaParamValueOf(p)
  {
    var single: Option<Alpha.SingleValue> := None;
    if p.single.Some? && p.single.value.value.Some? {
      single := Some(Alpha.SingleValue(p.single.value.value, None, None));
    }
    if p.single.value.configMapValue.Some? {
      single := Some(single.value.(configMapValue := p.single.value.configMapValue));
    }
    if p.single.value.secretValue.Some? {
      single := Some(single.value.(secretValue := p.single.value.secretValue));
    }
    var values: seq<Alpha.SingleValue> := [];
    var i := 0;
    while i < |p.values|
      invariant 0 <= i <= |p.values|
      invariant |values| == i
      invariant forall k :: 0 <= k < i ==> values[k] == AlphaSingleValueOf(p.values[k])
    {
      var v := p.values[i];
      values := values + [Alpha.SingleValue(v.value, v.configMapValue, v.secretValue)];
      i := i + 1;
    }
    dest := Alpha.ParamValue(single, p.name, values);
  }

  /** convertBetaParamValue: builds a v1beta1 ParamValue, appending the list values one by one. */
  method ConvertBetaParamValue(orig: Alpha.ParamValue) returns (p: Beta.ParamValue)
    requires CanConvertAlphaParam(orig)
    ensures p == BetaParamValueOf(orig)
  {
    var single: Option<Beta.SingleValue> := None;
    if orig.single.Some? && orig.single.value.value.Some? {
      single := Some(Beta.SingleValue(orig.single.value.value, None, None));
    }
    if orig.single.value.configMapValue.Some? {
      single := Some(single.value.(configMapValue := orig.single.value.configMapValue));
    }
    if orig.single.value.secretValue.Some? {
      single := Some(single.value.(secretValue := orig.single.value.secretValue));
    }
    var values: seq<Beta.SingleValue> := [];
    var i := 0;
    while i < |orig.values|
      invariant 0 <= i <= |orig.values|
      invariant |values| == i
      invariant forall k :: 0 <= k < i ==> values[k] == BetaSingleValueOf(orig.values[k])
    {
      var v := orig.values[i];
      values := values + [Beta.SingleValue(v.value, v.configMapValue, v.secretValue)];
      i := i + 1;
    }
    p := Beta.ParamValue(single, orig.name, values);
  }

  /**
   * A v1alpha1 ParamValue as runtime.DefaultUnstructuredConverter.FromUnstructured
   * reads it: the inline `*SingleValue` is always allocated, so a parameter written
   * without a single value reads back with an empty one.
   */
  function AlphaDecodedParam(p: Alpha.ParamValue): (r: Alpha.ParamValue)
    ensures r.single.Some? && r.name == p.name && r.values == p.values
    ensures p.single.Some? ==> r == p
    ensures p.single.None? ==> r.single.value == Alpha.SingleValue(None, None, None)
  {
    if p.single.Some? then p else p.(single := Some(Alpha.SingleValue(None, None, None)))
  }

  /** The same decoding of a v1beta1 ParamValue. */
  function BetaDecodedParam(p: Beta.ParamValue): (r: Beta.ParamValue)
    ensures r.single.Some? && r.name == p.name && r.values == p.values
    ensures p.single.Some? ==> r == p
    ensures p.single.None? ==> r.single.value == Beta.SingleValue(None, None, None)
  {
    if p.single.Some? then p else p.(single := Some(Beta.SingleValue(None, None, None)))
  }

  /**
   * Every decoded v1beta1 parameter, single-valued or a list, survives v1beta1 -> v1alpha1
   * -> v1beta1 once each side is read back as the webhook reads it; one with a single
   * value survives even without that reading.
   */
  lemma {:induction false} BetaParamValueRoundTrip(p: Beta.ParamValue)
    requires CanConvertBetaParam(p)
    ensures CanConvertAlphaParam(AlphaDecodedParam(AlphaParamValueOf(p)))
    ensures BetaDecodedParam(BetaParamValueOf(AlphaDecodedParam(AlphaParamValueOf(p)))) == p
    ensures p.single.value.value.Some? ==> CanConvertAlphaParam(AlphaParamValueOf(p)) && BetaParamValueOf(AlphaParamValueOf(p)) == p
  {
    var a := AlphaDecodedParam(AlphaParamValueOf(p));
    var back := BetaDecodedParam(BetaParamValueOf(a));
    assert back.values == p.values;
    if p.single.value.value.None? {
      assert p.single.value == Beta.SingleValue(None, None, None);
    }
  }

  /**
   * Every decoded v1alpha1 parameter survives v1alpha1 -> v1beta1 -> v1alpha1 once each
   * side is read back as the webhook reads it; one with a single value survives even
   * without that reading.
   */
  lemma {:induction false} AlphaParamValueRoundTrip(p: Alpha.ParamValue)
    requires CanConvertAlphaParam(p)
    ensures CanConvertBetaParam(BetaDecodedParam(BetaParamValueOf(p)))
    ensures AlphaDecodedParam(AlphaParamValueOf(BetaDecodedParam(BetaParamValueOf(p)))) == p
    ensures p.single.value.value.Some? ==> CanConvertBetaParam(BetaParamValueOf(p)) && AlphaParamValueOf(BetaParamValueOf(p)) == p
  {
    var b := BetaDecodedParam(BetaParamValueOf(p));
    var back := AlphaDecodedParam(AlphaParamValueOf(b));
    assert back.values == p.values;
    if p.single.value.value.None? {
      assert p.single.value == Alpha.SingleValue(None, None, None);
    }
  }

  // ---------------------------------------------------------------------------
  // Triggers
  // ---------------------------------------------------------------------------

  /** Specification of TriggerWhen.convertToAlpha; the GitHub payload is dereferenced unconditionally. */
  function AlphaTriggerWhenOf(acc: Accessors, t: Beta.TriggerWhen): (r: Alpha.TriggerWhen)
    requires t.gitHub.Some?
    ensures r.name == t.name && r.triggerType == t.triggerType
    ensures r.gitHub.Some?
    ensures r.gitHub.value.events == t.gitHub.value.events
    ensures r.gitHub.value.branches == acc.betaBranches(t, GitHubWebHookTrigger)
    ensures r.image == t.image && r.objectRef == t.objectRef
  {
    Alpha.TriggerWhen(t.name, t.triggerType,
      Some(Alpha.WhenGitHub(t.gitHub.value.events, acc.betaBranches(t, GitHubWebHookTrigger))),
      t.image, t.objectRef)
  }

  /** Specification of convertToBetaTriggers. */
  function BetaTriggerWhenOf(acc: Accessors, t: Alpha.TriggerWhen): (r: Beta.TriggerWhen)
    requires t.gitHub.Some?
    ensures r.name == t.name && r.triggerType == t.triggerType
    ensures r.gitHub.Some?
    ensures r.gitHub.value.events == t.gitHub.value.events
    ensures r.gitHub.value.branches == acc.alphaBranches(t, GitHubWebHookTrigger)
    ensures r.image == t.image && r.objectRef == t.objectRef
  {
    Beta.TriggerWhen(t.name, t.triggerType,
      Some(Beta.WhenGitHub(t.gitHub.value.events, acc.alphaBranches(t, GitHubWebHookTrigger))),
      t.image, t.objectRef)
  }

  /** TriggerWhen.convertToAlpha: always allocates the GitHub payload and appends the events one by one. */
  method ConvertTriggerWhenToAlpha(acc: Accessors, p: Beta.TriggerWhen) returns (dest: Alpha.TriggerWhen)
    requires p.gitHub.Some?
    ensures dest == AlphaTriggerWhenOf(acc, p)
  {
    var events: seq<string> := [];
    var i := 0;
    while i < |p.gitHub.value.events|
      invariant 0 <= i <= |p.gitHub.value.events|
      invariant events == p.gitHub.value.events[..i]
    {
      events := events + [p.gitHub.value.events[i]];
      i := i + 1;
    }
    assert events == p.gitHub.value.events;
    dest := Alpha.TriggerWhen(p.name, p.triggerType,
      Some(Alpha.WhenGitHub(events, acc.betaBranches(p, GitHubWebHookTrigger))), p.image, p.objectRef);
  }

  /** convertToBetaTriggers. */
  method ConvertToBetaTriggers(acc: Accessors, orig: Alpha.TriggerWhen) returns (dest: Beta.TriggerWhen)
    requires orig.gitHub.Some?
    ensures dest == BetaTriggerWhenOf(acc, orig)
  {
    var events: seq<string> := [];
    var i := 0;
    while i < |orig.gitHub.value.events|
      invariant 0 <= i <= |orig.gitHub.value.events|
      invariant events == orig.gitHub.value.events[..i]
    {
      events := events + [orig.gitHub.value.events[i]];
      i := i + 1;
    }
    assert events == orig.gitHub.value.events;
    dest := Beta.TriggerWhen(orig.name, orig.triggerType,
      Some(Beta.WhenGitHub(events, acc.alphaBranches(orig, GitHubWebHookTrigger))), orig.image, orig.objectRef);
  }

  /** Round trip of one trigger entry, given branch accessors that read the GitHub payload's branches. */
  lemma TriggerWhenRoundTrip(acc: Accessors, t: Beta.TriggerWhen)
    requires t.gitHub.Some?
    requires acc.betaBranches(t, GitHubWebHookTrigger) == t.gitHub.value.branches
    requires forall a: Alpha.TriggerWhen :: a.gitHub.Some? ==> acc.alphaBranches(a, GitHubWebHookTrigger) == a.gitHub.value.branches
    ensures BetaTriggerWhenOf(acc, AlphaTriggerWhenOf(acc, t)) == t
  {
    var a := AlphaTriggerWhenOf(acc, t);
    assert acc.alphaBranches(a, GitHubWebHookTrigger) == a.gitHub.value.branches;
  }

  // ---------------------------------------------------------------------------
  // Output, retention, volumes, strategy
  // ---------------------------------------------------------------------------

  /** The v1alpha1 -> v1beta1 output part of BuildSpec.ConvertFrom; `prior` is the destination before the call. */
  function BetaOutputOf(prior: Beta.Image, o: Alpha.Image): (r: Beta.Image)
    ensures r.image == o.image && r.annotations == o.annotations && r.labels == o.labels
    ensures o.credentials.Some? ==> r.pushSecret == Some(o.credentials.value.name)
    ensures o.credentials.None? ==> r.pushSecret == prior.pushSecret
    ensures r.insecure == prior.insecure
  {
    var pushSecret := if o.credentials.Some? then Some(o.credentials.value.name) else prior.pushSecret;
    Beta.Image(o.image, prior.insecure, pushSecret, o.annotations, o.labels)
  }

  /** The v1beta1 -> v1alpha1 output part of BuildSpec.ConvertTo: `Insecure` is always false. */
  function AlphaOutputOf(prior: Alpha.Image, o: Beta.Image): (r: Alpha.Image)
    ensures r.image == o.image && r.annotations == o.annotations && r.labels == o.labels
    ensures r.insecure == Some(false)
    ensures o.pushSecret.Some? ==> r.credentials == Some(LocalObjectReference(o.pushSecret.value))
    ensures o.pushSecret.None? ==> r.credentials == prior.credentials
  {
    var credentials := if o.pushSecret.Some? then Some(LocalObjectReference(o.pushSecret.value)) else prior.credentials;
    Alpha.Image(o.image, Some(false), credentials, o.annotations, o.labels)
  }

  /** Retention in BuildSpec.ConvertFrom: always allocated, each limit copied when present. */
  function BetaRetentionOf(r: Option<Alpha.BuildRetention>): (out: Beta.BuildRetention)
    ensures out.failedLimit == (if r.Some? then r.value.failedLimit else None)
    ensures out.succeededLimit == (if r.Some? then r.value.succeededLimit else None)
    ensures out.ttlAfterFailed == (if r.Some? then r.value.ttlAfterFailed else None)
    ensures out.ttlAfterSucceeded == (if r.Some? then r.value.ttlAfterSucceeded else None)
    ensures out.atBuildDeletion.None?
  {
    match r
    case None => Beta.BuildRetention(None, None, None, None, None)
    case Some(ret) =>
      Beta.BuildRetention(
        if ret.failedLimit.Some? then ret.failedLimit else None,
        if ret.succeededLimit.Some? then ret.succeededLimit else None,
        if ret.ttlAfterFailed.Some? then ret.ttlAfterFailed else None,
        if ret.ttlAfterSucceeded.Some? then ret.ttlAfterSucceeded else None,
        None)
  }

  /** Retention in BuildSpec.ConvertTo: always allocated, each limit copied when present. */
  function AlphaRetentionOf(r: Option<Beta.BuildRetention>): (out: Alpha.BuildRetention)
    ensures out.failedLimit == (if r.Some? then r.value.failedLimit else None)
    ensures out.succeededLimit == (if r.Some? then r.value.succeededLimit else None)
    ensures out.ttlAfterFailed == (if r.Some? then r.value.ttlAfterFailed else None)
    ensures out.ttlAfterSucceeded == (if r.Some? then r.value.ttlAfterSucceeded else None)
  {
    var failed := if r.Some? && r.value.failedLimit.Some? then r.value.failedLimit else None;
    var succeeded := if r.Some? && r.value.succeededLimit.Some? then r.value.succeededLimit else None;
    var ttlFailed := if r.Some? && r.value.ttlAfterFailed.Some? then r.value.ttlAfterFailed else None;
    var ttlSucceeded := if r.Some? && r.value.ttlAfterSucceeded.Some? then r.value.ttlAfterSucceeded else None;
    Alpha.BuildRetention(failed, succeeded, ttlFailed, ttlSucceeded)
  }

  function BetaVolumeOf(v: Alpha.BuildVolume): (r: Beta.BuildVolume)
    ensures r.name == v.name && r.volumeSource == v.volumeSource
  {
    Beta.BuildVolume(v.name, v.volumeSource)
  }

  function AlphaVolumeOf(v: Beta.BuildVolume): (r: Alpha.BuildVolume)
    ensures r.name == v.name && r.description.None? && r.volumeSource == v.volumeSource
  {
    Alpha.BuildVolume(v.name, None, v.volumeSource)
  }

  /** A v1alpha1 volume without description survives v1alpha1 -> v1beta1 -> v1alpha1. */
  lemma AlphaVolumeRoundTrip(v: Alpha.BuildVolume)
    ensures AlphaVolumeOf(BetaVolumeOf(v)) == v <==> v.description.None?
  {
  }

  // ---------------------------------------------------------------------------
  // BuildSpec
  // ---------------------------------------------------------------------------

  /** The nil dereferences of BuildSpec.ConvertFrom. */
  predicate CanConvertAlphaSpec(orig: Alpha.BuildSpec) {
    && (orig.source.bundleContainer.Some? ==> orig.source.credentials.Some?)
    && (orig.trigger.Some? ==> forall t :: t in orig.trigger.value.when ==> t.gitHub.Some?)
    && (forall p :: p in orig.paramValues ==> CanConvertAlphaParam(p))
  }

  /** The nil dereferences of BuildSpec.ConvertTo. */
  predicate CanConvertBetaSpec(src: Beta.BuildSpec) {
    && CanConvertBetaSource(src.source)
    && (src.trigger.Some? ==> forall t :: t in src.trigger.value.when ==> t.gitHub.Some?)
    && (forall p :: p in src.paramValues ==> CanConvertBetaParam(p))
  }

  /** The v1alpha1 -> v1beta1 trigger of BuildSpec.ConvertFrom. */
  function BetaTriggerOf(acc: Accessors, t: Alpha.Trigger): (r: Beta.Trigger)
    requires forall w :: w in t.when ==> w.gitHub.Some?
    ensures |r.when| == |t.when|
    ensures forall i :: 0 <= i < |t.when| ==> r.when[i] == BetaTriggerWhenOf(acc, t.when[i])
    ensures r.triggerSecret == (if t.secretRef.Some? then Some(t.secretRef.value.name) else None)
  {
    Beta.Trigger(seq(|t.when|, i requires 0 <= i < |t.when| => BetaTriggerWhenOf(acc, t.when[i])),
      if t.secretRef.Some? then Some(t.secretRef.value.name) else None)
  }

  /** The v1beta1 -> v1alpha1 trigger of BuildSpec.ConvertTo. */
  function AlphaTriggerOf(acc: Accessors, t: Beta.Trigger): (r: Alpha.Trigger)
    requires forall w :: w in t.when ==> w.gitHub.Some?
    ensures |r.when| == |t.when|
    ensures forall i :: 0 <= i < |t.when| ==> r.when[i] == AlphaTriggerWhenOf(acc, t.when[i])
    ensures r.secretRef == (if t.triggerSecret.Some? then Some(LocalObjectReference(t.triggerSecret.value)) else None)
  {
    Alpha.Trigger(seq(|t.when|, i requires 0 <= i < |t.when| => AlphaTriggerWhenOf(acc, t.when[i])),
      if t.triggerSecret.Some? then Some(LocalObjectReference(t.triggerSecret.value)) else None)
  }

  function BetaParamValuesOf(ps: seq<Alpha.ParamValue>): (r: seq<Beta.ParamValue>)
    requires forall p :: p in ps ==> CanConvertAlphaParam(p)
    ensures |r| == |ps| && forall i :: 0 <= i < |ps| ==> r[i] == BetaParamValueOf(ps[i])
  {
    seq(|ps|, i requires 0 <= i < |ps| => BetaParamValueOf(ps[i]))
  }

  function AlphaParamValuesOf(ps: seq<Beta.ParamValue>): (r: seq<Alpha.ParamValue>)
    requires forall p :: p in ps ==> CanConvertBetaParam(p)
    ensures |r| == |ps| && forall i :: 0 <= i < |ps| ==> r[i] == AlphaParamValueOf(ps[i])
  {
    seq(|ps|, i requires 0 <= i < |ps| => AlphaParamValueOf(ps[i]))
  }

  function BetaVolumesOf(vs: seq<Alpha.BuildVolume>): (r: seq<Beta.BuildVolume>)
    ensures |r| == |vs| && forall i :: 0 <= i < |vs| ==> r[i] == BetaVolumeOf(vs[i])
  {
    seq(|vs|, i requires 0 <= i < |vs| => BetaVolumeOf(vs[i]))
  }

  function AlphaVolumesOf(vs: seq<Beta.BuildVolume>): (r: seq<Alpha.BuildVolume>)
    ensures |r| == |vs| && forall i :: 0 <= i < |vs| ==> r[i] == AlphaVolumeOf(vs[i])
  {
    seq(|vs|, i requires 0 <= i < |vs| => AlphaVolumeOf(vs[i]))
  }

  /**
   * Specification of BuildSpec.ConvertFrom (v1alpha1 -> v1beta1). `dest` is the
   * destination before the call: the trigger (when the source has none), the push
   * secret (when the source has no credentials) and `Insecure` keep its values.
   */
  function BetaBuildSpecOf(acc: Accessors, dest: Beta.BuildSpec, orig: Alpha.BuildSpec): (r: Beta.BuildSpec)
    requires CanConvertAlphaSpec(orig)
  {
    Beta.BuildSpec(
      BetaSourceOf(orig.source),
      if orig.trigger.Some? then Some(BetaTriggerOf(acc, orig.trigger.value)) else dest.trigger,
      Beta.Strategy(acc.alphaStrategyName(orig), orig.strategy.kind, orig.strategy.apiVersion),
      BetaParamValuesOf(orig.paramValues),
      BetaOutputOf(dest.output, orig.output),
      orig.timeout,
      orig.env,
      Some(BetaRetentionOf(orig.retention)),
      BetaVolumesOf(orig.volumes))
  }

  /**
   * Specification of BuildSpec.ConvertTo (v1beta1 -> v1alpha1). Builder and
   * Dockerfile are cleared; the trigger (when the source has none) and the output
   * credentials (when the source has no push secret) keep the destination's values.
   */
  function AlphaBuildSpecOf(acc: Accessors, bs: Alpha.BuildSpec, src: Beta.BuildSpec): (r: Alpha.BuildSpec)
    requires CanConvertBetaSpec(src)
  {
    Alpha.BuildSpec(
      GetAlphaBuildSource(src.source),
      if src.trigger.Some? then Some(AlphaTriggerOf(acc, src.trigger.value)) else bs.trigger,
      Alpha.Strategy(acc.betaStrategyName(src), src.strategy.kind, src.strategy.apiVersion),
      None,
      None,
      AlphaParamValuesOf(src.paramValues),
      AlphaOutputOf(bs.output, src.output),
      src.timeout,
      src.env,
      Some(AlphaRetentionOf(src.retention)),
      AlphaVolumesOf(src.volumes))
  }

  /** BuildSpec.ConvertFrom: fills the v1beta1 destination field by field, with append loops. */
  method BuildSpecConvertFrom(acc: Accessors, dest: Beta.BuildSpec, orig: Alpha.BuildSpec) returns (r: Beta.BuildSpec)
    requires CanConvertAlphaSpec(orig)
    ensures r == BetaBuildSpecOf(acc, dest, orig)
  {
    r := dest;
    r := r.(source := BetaSourceOf(orig.source));

    if orig.trigger.Some? {
      var when: seq<Beta.TriggerWhen> := [];
      var i := 0;
      while i < |orig.trigger.value.when|
        invariant 0 <= i <= |orig.trigger.value.when|
        invariant |when| == i
        invariant forall k :: 0 <= k < i ==> when[k] == BetaTriggerWhenOf(acc, orig.trigger.value.when[k])
      {
        var tw := ConvertToBetaTriggers(acc, orig.trigger.value.when[i]);
        when := when + [tw];
        i := i + 1;
      }
      var secret := if orig.trigger.value.secretRef.Some? then Some(orig.trigger.value.secretRef.value.name) else None;
      assert Beta.Trigger(when, secret) == BetaTriggerOf(acc, orig.trigger.value);
      r := r.(trigger := Some(Beta.Trigger(when, secret)));
    }

    r := r.(strategy := Beta.Strategy(acc.alphaStrategyName(orig), orig.strategy.kind, orig.strategy.apiVersion));

    var params: seq<Beta.ParamValue> := [];
    var j := 0;
    while j < |orig.paramValues|
      invariant 0 <= j <= |orig.paramValues|
      invariant |params| == j
      invariant forall k :: 0 <= k < j ==> params[k] == BetaParamValueOf(orig.paramValues[k])
    {
      var p := ConvertBetaParamValue(orig.paramValues[j]);
      params := params + [p];
      j := j + 1;
    }
    assert params == BetaParamValuesOf(orig.paramValues);
    r := r.(paramValues := params);

    var output := r.output.(image := orig.output.image);
    if orig.output.credentials.Some? {
      output := output.(pushSecret := Some(orig.output.credentials.value.name));
    }
    output := output.(annotations := orig.output.annotations, labels := orig.output.labels);
    r := r.(output := output, timeout := orig.timeout, env := orig.env);

    r := r.(retention := Some(BetaRetentionOf(orig.retention)));

    var volumes: seq<Beta.BuildVolume> := [];
    var m := 0;
    while m < |orig.volumes|
      invariant 0 <= m <= |orig.volumes|
      invariant |volumes| == m
      invariant forall k :: 0 <= k < m ==> volumes[k] == BetaVolumeOf(orig.volumes[k])
    {
      volumes := volumes + [Beta.BuildVolume(orig.volumes[m].name, orig.volumes[m].volumeSource)];
      m := m + 1;
    }
    assert volumes == BetaVolumesOf(orig.volumes);
    r := r.(volumes := volumes);
  }

  /** BuildSpec.ConvertTo: fills the v1alpha1 destination field by field, with append loops. */
  method BuildSpecConvertTo(acc: Accessors, bs: Alpha.BuildSpec, srcSpec: Beta.BuildSpec) returns (r: Alpha.BuildSpec)
    requires CanConvertBetaSpec(srcSpec)
    ensures r == AlphaBuildSpecOf(acc, bs, srcSpec)
  {
    r := bs;
    r := r.(source := GetAlphaBuildSource(srcSpec.source));

    if srcSpec.trigger.Some? {
      var when: seq<Alpha.TriggerWhen> := [];
      var i := 0;
      while i < |srcSpec.trigger.value.when|
        invariant 0 <= i <= |srcSpec.trigger.value.when|
        invariant |when| == i
        invariant forall k :: 0 <= k < i ==> when[k] == AlphaTriggerWhenOf(acc, srcSpec.trigger.value.when[k])
      {
        var tw := ConvertTriggerWhenToAlpha(acc, srcSpec.trigger.value.when[i]);
        when := when + [tw];
        i := i + 1;
      }
      var secretRef := if srcSpec.trigger.value.triggerSecret.Some?
        then Some(LocalObjectReference(srcSpec.trigger.value.triggerSecret.value)) else None;
      assert Alpha.Trigger(when, secretRef) == AlphaTriggerOf(acc, srcSpec.trigger.value);
      r := r.(trigger := Some(Alpha.Trigger(when, secretRef)));
    }

    r := r.(strategy := Alpha.Strategy(acc.betaStrategyName(srcSpec), srcSpec.strategy.kind, srcSpec.strategy.apiVersion));
    r := r.(builder := None, dockerfile := None);

    var params: seq<Alpha.ParamValue> := [];
    var j := 0;
    while j < |srcSpec.paramValues|
      invariant 0 <= j <= |srcSpec.paramValues|
      invariant |params| == j
      invariant forall k :: 0 <= k < j ==> params[k] == AlphaParamValueOf(srcSpec.paramValues[k])
    {
      var p := ConvertParamValueToAlpha(srcSpec.paramValues[j]);
      params := params + [p];
      j := j + 1;
    }
    assert params == AlphaParamValuesOf(srcSpec.paramValues);
    r := r.(paramValues := params);

    var output := r.output.(image := srcSpec.output.image, insecure := Some(false));
    if srcSpec.output.pushSecret.Some? {
      output := output.(credentials := Some(LocalObjectReference(srcSpec.output.pushSecret.value)));
    }
    output := output.(annotations := srcSpec.output.annotations, labels := srcSpec.output.labels);
    r := r.(output := output, timeout := srcSpec.timeout, env := srcSpec.env);

    r := r.(retention := Some(AlphaRetentionOf(srcSpec.retention)));

    var volumes: seq<Alpha.BuildVolume> := [];
    var m := 0;
    while m < |srcSpec.volumes|
      invariant 0 <= m <= |srcSpec.volumes|
      invariant |volumes| == m
      invariant forall k :: 0 <= k < m ==> volumes[k] == AlphaVolumeOf(srcSpec.volumes[k])
    {
      volumes := volumes + [Alpha.BuildVolume(srcSpec.volumes[m].name, None, srcSpec.volumes[m].volumeSource)];
      m := m + 1;
    }
    assert volumes == AlphaVolumesOf(srcSpec.volumes);
    r := r.(volumes := volumes);
  }

  // ---------------------------------------------------------------------------
  // Properties of the spec-level conversions
  // ---------------------------------------------------------------------------

  /** v1alpha1 -> v1beta1 keeps every list's length and converts it entry by entry, in order. */
  lemma BetaBuildSpecLists(acc: Accessors, dest: Beta.BuildSpec, orig: Alpha.BuildSpec)
    requires CanConvertAlphaSpec(orig)
    ensures var r := BetaBuildSpecOf(acc, dest, orig);
      && |r.paramValues| == |orig.paramValues|
      && (forall i :: 0 <= i < |orig.paramValues| ==> r.paramValues[i] == BetaParamValueOf(orig.paramValues[i]))
      && |r.volumes| == |orig.volumes|
      && (forall i :: 0 <= i < |orig.volumes| ==> r.volumes[i] == BetaVolumeOf(orig.volumes[i]))
      && (orig.trigger.Some? ==>
            && r.trigger.Some?
            && |r.trigger.value.when| == |orig.trigger.value.when|
            && (forall i :: 0 <= i < |orig.trigger.value.when| ==>
                  r.trigger.value.when[i] == BetaTriggerWhenOf(acc, orig.trigger.value.when[i]))
            && (r.trigger.value.triggerSecret.Some? <==> orig.trigger.value.secretRef.Some?))
      && (orig.trigger.None? ==> r.trigger == dest.trigger)
  {
  }

  /** v1beta1 -> v1alpha1 keeps every list's length and converts it entry by entry, in order;
      the legacy Builder and Dockerfile fields are cleared and `Insecure` is false. */
  lemma AlphaBuildSpecLists(acc: Accessors, bs: Alpha.BuildSpec, src: Beta.BuildSpec)
    requires CanConvertBetaSpec(src)
    ensures var r := AlphaBuildSpecOf(acc, bs, src);
      && |r.paramValues| == |src.paramValues|
      && (forall i :: 0 <= i < |src.paramValues| ==> r.paramValues[i] == AlphaParamValueOf(src.paramValues[i]))
      && |r.volumes| == |src.volumes|
      && (forall i :: 0 <= i < |src.volumes| ==> r.volumes[i] == AlphaVolumeOf(src.volumes[i]))
      && (src.trigger.Some? ==>
            && r.trigger.Some?
            && |r.trigger.value.when| == |src.trigger.value.when|
            && (forall i :: 0 <= i < |src.trigger.value.when| ==>
                  r.trigger.value.when[i] == AlphaTriggerWhenOf(acc, src.trigger.value.when[i]))
            && (r.trigger.value.secretRef.Some? <==> src.trigger.value.triggerSecret.Some?))
      && (src.trigger.None? ==> r.trigger == bs.trigger)
      && r.builder.None? && r.dockerfile.None?
      && r.output.insecure == Some(false)
      && r.retention.Some?
  {
  }

  /** A list of v1alpha1 parameters as FromUnstructured reads it. */
  function AlphaDecodedParams(ps: seq<Alpha.ParamValue>): (r: seq<Alpha.ParamValue>)
    ensures |r| == |ps| && forall i :: 0 <= i < |ps| ==> r[i] == AlphaDecodedParam(ps[i])
  {
    seq(|ps|, i requires 0 <= i < |ps| => AlphaDecodedParam(ps[i]))
  }

  /** A list of v1beta1 parameters as FromUnstructured reads it. */
  function BetaDecodedParams(ps: seq<Beta.ParamValue>): (r: seq<Beta.ParamValue>)
    ensures |r| == |ps| && forall i :: 0 <= i < |ps| ==> r[i] == BetaDecodedParam(ps[i])
  {
    seq(|ps|, i requires 0 <= i < |ps| => BetaDecodedParam(ps[i]))
  }

  /** Lists whose parameters all hold a single value are already in decoded form. */
  lemma {:induction false} SingleValuedParamsDecoded(ps: seq<Beta.ParamValue>)
    requires forall p :: p in ps ==> CanConvertBetaParam(p) && p.single.value.value.Some?
    ensures forall p :: p in AlphaParamValuesOf(ps) ==> CanConvertAlphaParam(p)
    ensures AlphaDecodedParams(AlphaParamValuesOf(ps)) == AlphaParamValuesOf(ps)
    ensures BetaDecodedParams(BetaParamValuesOf(AlphaParamValuesOf(ps))) == BetaParamValuesOf(AlphaParamValuesOf(ps))
  {
    var a := AlphaParamValuesOf(ps);
    forall i | 0 <= i < |ps| ensures a[i].single.Some? && CanConvertAlphaParam(a[i]) {
      assert ps[i] in ps;
    }
    assert AlphaDecodedParams(a) == a;
    var b := BetaParamValuesOf(a);
    forall i | 0 <= i < |ps| ensures b[i].single.Some? {
      assert ps[i] in ps;
    }
    assert BetaDecodedParams(b) == b;
  }

  /** A v1alpha1 BuildSpec as FromUnstructured reads it: every parameter is decoded. */
  function AlphaDecodedSpec(a: Alpha.BuildSpec): (r: Alpha.BuildSpec)
    ensures r.paramValues == AlphaDecodedParams(a.paramValues)
    ensures r.(paramValues := a.paramValues) == a
  {
    a.(paramValues := AlphaDecodedParams(a.paramValues))
  }

  /** A v1beta1 BuildSpec as FromUnstructured reads it. */
  function BetaDecodedSpec(b: Beta.BuildSpec): (r: Beta.BuildSpec)
    ensures r.paramValues == BetaDecodedParams(b.paramValues)
    ensures r.(paramValues := b.paramValues) == b
  {
    b.(paramValues := BetaDecodedParams(b.paramValues))
  }

  /** The Build specs of the representable subset: a round-trippable source, the output's
      `Insecure` unset, and a retention whose AtBuildDeletion is unset. Parameters and
      triggers of every shape the converter accepts are included. */
  predicate BetaSpecRoundTrips(src: Beta.BuildSpec) {
    && CanConvertBetaSpec(src)
    && BetaSourceRoundTrips(src.source)
    && src.output.insecure.None?
    && src.retention.Some? && src.retention.value.atBuildDeletion.None?
  }

  /** Both directions convert the trigger entry by entry, so a trigger comes back unchanged. */
  lemma {:induction false} TriggerRoundTrip(acc: Accessors, t: Beta.Trigger)
    requires forall t: Beta.TriggerWhen :: t.gitHub.Some? ==> acc.betaBranches(t, GitHubWebHookTrigger) == t.gitHub.value.branches
    requires forall t: Alpha.TriggerWhen :: t.gitHub.Some? ==> acc.alphaBranches(t, GitHubWebHookTrigger) == t.gitHub.value.branches
    requires forall w :: w in t.when ==> w.gitHub.Some?
    ensures forall w :: w in AlphaTriggerOf(acc, t).when ==> w.gitHub.Some?
    ensures BetaTriggerOf(acc, AlphaTriggerOf(acc, t)) == t
  {
    var a := AlphaTriggerOf(acc, t);
    var b := BetaTriggerOf(acc, a);
    forall i | 0 <= i < |t.when| ensures b.when[i] == t.when[i] {
      assert t.when[i] in t.when;
      TriggerWhenRoundTrip(acc, t.when[i]);
    }
    assert b.when == t.when;
  }

  /**
   * A v1beta1 BuildSpec of the representable subset survives v1beta1 -> v1alpha1 -> v1beta1,
   * when both conversions fill fresh destinations, the strategy names are read from the
   * Strategy field, the branch accessors read the GitHub payload, and each side is read
   * back as the webhook reads it. With only single-valued parameters the reading is
   * not needed.
   */
  lemma BetaBuildSpecRoundTrip(acc: Accessors, src: Beta.BuildSpec)
    requires BetaSpecRoundTrips(src)
    requires acc.betaStrategyName(src) == src.strategy.name
    requires forall a: Alpha.BuildSpec :: acc.alphaStrategyName(a) == a.strategy.name
    requires forall t: Beta.TriggerWhen :: t.gitHub.Some? ==> acc.betaBranches(t, GitHubWebHookTrigger) == t.gitHub.value.branches
    requires forall t: Alpha.TriggerWhen :: t.gitHub.Some? ==> acc.alphaBranches(t, GitHubWebHookTrigger) == t.gitHub.value.branches
    ensures CanConvertAlphaSpec(AlphaDecodedSpec(AlphaBuildSpecOf(acc, Alpha.ZeroBuildSpec, src)))
    ensures BetaDecodedSpec(BetaBuildSpecOf(acc, Beta.ZeroBuildSpec,
              AlphaDecodedSpec(AlphaBuildSpecOf(acc, Alpha.ZeroBuildSpec, src)))) == src
    ensures (forall p :: p in src.paramValues ==> p.single.value.value.Some?) ==>
              && CanConvertAlphaSpec(AlphaBuildSpecOf(acc, Alpha.ZeroBuildSpec, src))
              && BetaBuildSpecOf(acc, Beta.ZeroBuildSpec, AlphaBuildSpecOf(acc, Alpha.ZeroBuildSpec, src)) == src
  {
    var a0 := AlphaBuildSpecOf(acc, Alpha.ZeroBuildSpec, src);
    var a := AlphaDecodedSpec(a0);
    forall p | p in a.paramValues ensures CanConvertAlphaParam(p) {
      var i :| 0 <= i < |a.paramValues| && a.paramValues[i] == p;
      assert src.paramValues[i] in src.paramValues;
      BetaParamValueRoundTrip(src.paramValues[i]);
    }
    if src.trigger.Some? {
      TriggerRoundTrip(acc, src.trigger.value);
    }
    var b := BetaDecodedSpec(BetaBuildSpecOf(acc, Beta.ZeroBuildSpec, a));
    BetaSourceRoundTrip(src.source);
    assert b.paramValues == src.paramValues by {
      forall i | 0 <= i < |src.paramValues| ensures b.paramValues[i] == src.paramValues[i] {
        assert src.paramValues[i] in src.paramValues;
        BetaParamValueRoundTrip(src.paramValues[i]);
      }
    }
    assert b.trigger == src.trigger;
    assert b.volumes == src.volumes;
    assert b.output == src.output;
    assert b.retention == src.retention;
    if forall p :: p in src.paramValues ==> p.single.value.value.Some? {
      SingleValuedParamsDecoded(src.paramValues);
    }
  }

  // ---------------------------------------------------------------------------
  // Build objects
  // ---------------------------------------------------------------------------

  /** Build.ConvertTo: a v1beta1 Build becomes a v1alpha1 Build with the same metadata,
      the v1alpha1 group version and the converted spec; the status is not carried. */
  function AlphaBuildOf(acc: Accessors, src: Beta.Build): (bs: Alpha.Build)
    requires CanConvertBetaSpec(src.spec)
    ensures bs.typeMeta == TypeMeta(AlphaGroupVersion, src.typeMeta.kind)
    ensures bs.meta == src.meta
    ensures bs.spec == AlphaBuildSpecOf(acc, Alpha.ZeroBuildSpec, src.spec)
    ensures bs.status == Alpha.ZeroBuildStatus
  {
    Alpha.Build(TypeMeta(AlphaGroupVersion, src.typeMeta.kind), src.meta,
      AlphaBuildSpecOf(acc, Alpha.ZeroBuildSpec, src.spec), Alpha.ZeroBuildStatus)
  }

  /** Build.ConvertFrom: the receiver takes the v1alpha1 Build's metadata, the v1beta1 group
      version (whatever its own TypeMeta said before), the converted spec and a copy of
      the registration status. */
  function BetaBuildOf(acc: Accessors, dest: Beta.Build, bs: Alpha.Build): (r: Beta.Build)
    requires CanConvertAlphaSpec(bs.spec)
    ensures r.typeMeta == TypeMeta(BetaGroupVersion, bs.typeMeta.kind)
    ensures r.meta == bs.meta
    ensures r.spec == BetaBuildSpecOf(acc, dest.spec, bs.spec)
    ensures r.status == Beta.BuildStatus(bs.status.registered, bs.status.reason, bs.status.message)
  {
    Beta.Build(TypeMeta(BetaGroupVersion, bs.typeMeta.kind), bs.meta, BetaBuildSpecOf(acc, dest.spec, bs.spec),
      Beta.BuildStatus(bs.status.registered, bs.status.reason, bs.status.message))
  }

  /** Build.ConvertTo, assigning the destination's fields in turn. */
  method BuildConvertTo(acc: Accessors, src: Beta.Build) returns (bs: Alpha.Build)
    requires CanConvertBetaSpec(src.spec)
    ensures bs == AlphaBuildOf(acc, src)
  {
    var spec := BuildSpecConvertTo(acc, Alpha.ZeroBuildSpec, src.spec);
    bs := Alpha.Build(TypeMeta(AlphaGroupVersion, src.typeMeta.kind), src.meta, spec, Alpha.ZeroBuildStatus);
  }

  /** Build.ConvertFrom, assigning the receiver's fields in turn. */
  method BuildConvertFrom(acc: Accessors, dest: Beta.Build, bs: Alpha.Build) returns (r: Beta.Build)
    requires CanConvertAlphaSpec(bs.spec)
    ensures r == BetaBuildOf(acc, dest, bs)
  {
    var spec := BuildSpecConvertFrom(acc, dest.spec, bs.spec);
    r := Beta.Build(TypeMeta(BetaGroupVersion, bs.typeMeta.kind), bs.meta, spec,
      Beta.BuildStatus(bs.status.registered, bs.status.reason, bs.status.message));
  }
}
