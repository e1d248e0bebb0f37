// The conversion webhook's dispatcher (pkg/webhook/conversion/converter.go):
// `convertSHPCR` picks a converter from the object's API version, the requested
// version and the object's kind, and reports the outcome as a Kubernetes Status.
//
// The unstructured object is a record of its `apiVersion`, its `kind` and an opaque
// content; decoding it into a typed Build and encoding a typed Build back are the
// functions of a Codec. Decode and encode errors are only logged by the source, so
// the codec's functions are total here.

module Converter {
  import opened Wrappers
  import opened Kube
  import Alpha
  import Beta
  import opened BuildConversion
  import opened Format

  type Content(==)

  /** unstructured.Unstructured, reduced to what the dispatcher reads. */
  datatype Object = Unstructured(apiVersion: string, kind: string, content: Content)

  /** runtime.DefaultUnstructuredConverter for the two Build types. */
  datatype Codec = Codec(
    decodeBeta: Object -> Beta.Build,
    decodeAlpha: Object -> Alpha.Build,
    encodeAlpha: Alpha.Build -> Object,
    encodeBeta: Beta.Build -> Object)

  /** metav1.Status, reduced to its status and message. */
  datatype Status = Status(status: string, message: string)

  const StatusSuccess := "Success"
  const StatusFailure := "Failure"

  /** The only kind the dispatcher converts. */
  const BuildKind := "Build"

  /** statusSucceed (not part of this model): a success status without a message. */
  const Succeeded := Status(StatusSuccess, "")

  /** statusErrorWithMessage: a failure status whose message is the formatted text. */
  function StatusErrorWithMessage(msg: string, params: seq<string>): (s: Status)
    ensures s.status == StatusFailure
    ensures s.message == Sprintf(msg, params)
  {
    Status(StatusFailure, Sprintf(msg, params))
  }

  const UnsupportedKind := "unsupported Kind"
  const UnexpectedTo := "unexpected conversion version to "
  const UnexpectedFrom := "unexpected conversion version from "

  /** The failure messages the dispatcher produces, as the formatter prints them. */
  lemma UnsupportedKindMessage()
    ensures StatusErrorWithMessage(UnsupportedKind, []).message == UnsupportedKind
  {
    SprintfPlain(UnsupportedKind, []);
  }

  lemma UnexpectedToMessage(v: string)
    ensures StatusErrorWithMessage(UnexpectedTo + "%q", [v]).message == UnexpectedTo + Quote(v)
  {
    SprintfOneQuoted(UnexpectedTo, v);
  }

  lemma UnexpectedFromMessage(v: string)
    ensures StatusErrorWithMessage(UnexpectedFrom + "%q", [v]).message == UnexpectedFrom + Quote(v)
  {
    SprintfOneQuoted(UnexpectedFrom, v);
  }

  /** The version pairs the dispatcher converts between. */
  predicate SupportedPair(fromVersion: string, toVersion: string) {
    || (fromVersion == BetaGroupVersion && toVersion == AlphaGroupVersion)
    || (fromVersion == AlphaGroupVersion && toVersion == BetaGroupVersion)
  }

  /** The nil dereferences of the Build converters, on the decoded object that the dispatcher would convert. */
  predicate CanDispatch(acc: Accessors, codec: Codec, obj: Object, toVersion: string) {
    && (obj.apiVersion == BetaGroupVersion && toVersion == AlphaGroupVersion && obj.kind == BuildKind ==>
          CanConvertBetaSpec(codec.decodeBeta(obj).spec))
    && (obj.apiVersion == AlphaGroupVersion && toVersion == BetaGroupVersion && obj.kind == BuildKind ==>
          CanConvertAlphaSpec(codec.decodeAlpha(obj).spec))
  }

  /**
   * convertSHPCR. The typed Build is converted with the Build-level converters of
   * build_conversion.go (metadata, group version, spec; and the registration status
   * towards v1beta1). Towards v1beta1 the receiver has an empty spec and status and a
   * TypeMeta with the v1alpha1 group version, which the converter overwrites. ObjectMeta
   * is opaque, so the receiver is given the decoded object's metadata where the Go
   * receiver's is zero; the Build-level converter replaces it either way.
   */
  method ConvertSHPCR(acc: Accessors, codec: Codec, obj: Object, toVersion: string)
    returns (converted: Option<Object>, status: Status)
    requires CanDispatch(acc, codec, obj, toVersion)
    ensures status.status == StatusSuccess <==> converted.Some?
    ensures status.status == StatusSuccess <==>
      obj.apiVersion == toVersion || (SupportedPair(obj.apiVersion, toVersion) && obj.kind == BuildKind)
    ensures obj.apiVersion == toVersion ==> converted == Some(obj) && status == Succeeded
    ensures (obj.apiVersion != toVersion && obj.apiVersion == BetaGroupVersion && toVersion == AlphaGroupVersion
        && obj.kind == BuildKind) ==>
      && converted == Some(codec.encodeAlpha(AlphaBuildOf(acc, codec.decodeBeta(obj))))
      && status == Succeeded
    ensures (obj.apiVersion != toVersion && obj.apiVersion == AlphaGroupVersion && toVersion == BetaGroupVersion
        && obj.kind == BuildKind) ==>
      && converted == Some(codec.encodeBeta(BetaBuildOf(acc,
           Beta.Build(TypeMeta(AlphaGroupVersion, codec.decodeAlpha(obj).typeMeta.kind), codec.decodeAlpha(obj).meta,
             Beta.ZeroBuildSpec, Beta.BuildStatus(None, None, None)),
           codec.decodeAlpha(obj))))
      && status == Succeeded
    ensures obj.apiVersion != toVersion && SupportedPair(obj.apiVersion, toVersion) && obj.kind != BuildKind ==>
      status == StatusErrorWithMessage(UnsupportedKind, [])
    ensures (obj.apiVersion != toVersion && (obj.apiVersion == BetaGroupVersion || obj.apiVersion == AlphaGroupVersion)
        && !SupportedPair(obj.apiVersion, toVersion)) ==>
      status == StatusErrorWithMessage(UnexpectedTo + "%q", [toVersion])
    ensures obj.apiVersion != toVersion && obj.apiVersion != BetaGroupVersion && obj.apiVersion != AlphaGroupVersion ==>
      status == StatusErrorWithMessage(UnexpectedFrom + "%q", [obj.apiVersion])
  {
    var convertedObject := obj;
    var fromVersion := obj.apiVersion;

    if fromVersion == toVersion {
      return Some(convertedObject), Succeeded;
    }

    if fromVersion == BetaGroupVersion {
      if toVersion == AlphaGroupVersion {
        if convertedObject.kind == BuildKind {
          var build := codec.decodeBeta(convertedObject);
          var buildAlpha := BuildConvertTo(acc, build);
          convertedObject := codec.encodeAlpha(buildAlpha);
        } else {
          return None, StatusErrorWithMessage(UnsupportedKind, []);
        }
      } else {
        return None, StatusErrorWithMessage(UnexpectedTo + "%q", [toVersion]);
      }
    } else if fromVersion == AlphaGroupVersion {
      if toVersion == BetaGroupVersion {
        if convertedObject.kind == BuildKind {
          var buildAlpha := codec.decodeAlpha(convertedObject);
          var buildBeta := Beta.Build(TypeMeta(AlphaGroupVersion, buildAlpha.typeMeta.kind), buildAlpha.meta,
            Beta.ZeroBuildSpec, Beta.BuildStatus(None, None, None));
          buildBeta := BuildConvertFrom(acc, buildBeta, buildAlpha);
          convertedObject := codec.encodeBeta(buildBeta);
        } else {
          return None, StatusErrorWithMessage(UnsupportedKind, []);
        }
      } else {
        return None, StatusErrorWithMessage(UnexpectedTo + "%q", [toVersion]);
      }
    } else {
      return None, StatusErrorWithMessage(UnexpectedFrom + "%q", [fromVersion]);
    }
    return Some(convertedObject), Succeeded;
  }
}
