// The Build validation that keeps the owner references of a Build's BuildRuns in line
// with the Build's retention setting (pkg/validate/ownerreferences.go).
//
// The BuildRuns are listed by label; with `atBuildDeletion` true every BuildRun that
// has no owner reference to the Build gets a controller reference and is updated,
// with false every BuildRun that has one loses it and is updated. The cluster client
// is reduced to its outcomes: the listing is an input, and the update and
// controllerutil.SetControllerReference are functions passed in.

module OwnerReferences {
  import opened Wrappers
  import opened Kube
  import Beta

  /** A listed BuildRun, reduced to what the validation reads and writes. */
  datatype BuildRunObject = BuildRunObject(name: string, namespace: string, ownerReferences: seq<OwnerReference>)

  /** The Build reason set when a controller reference cannot be set. */
  const SetOwnerReferenceFailed := "SetOwnerReferenceFailed"
  const SetOwnerReferenceMessage := "unexpected error when trying to set the ownerreference: "

  /** A reference that names the Build: same kind and same name. */
  predicate Names(r: OwnerReference, kind: string, name: string) {
    r.kind == kind && r.name == name
  }

  /** The index of the first reference naming the Build, or -1 when none does. */
  function OwnerIndex(refs: seq<OwnerReference>, kind: string, name: string): (i: int)
    ensures -1 <= i < |refs|
    ensures i == -1 <==> forall k :: 0 <= k < |refs| ==> !Names(refs[k], kind, name)
    ensures i >= 0 ==> Names(refs[i], kind, name) && forall k :: 0 <= k < i ==> !Names(refs[k], kind, name)
    decreases |refs|
  {
    if |refs| == 0 then -1
    else if Names(refs[0], kind, name) then 0
    else
      var j := OwnerIndex(refs[1..], kind, name);
      assert forall k :: 1 <= k < |refs| ==> refs[k] == refs[1..][k - 1];
      if j == -1 then -1 else j + 1
  }

  /** The references without the one at `i`, the others in their order. */
  function Removed(refs: seq<OwnerReference>, i: int): (r: seq<OwnerReference>)
    requires 0 <= i < |refs|
    ensures |r| == |refs| - 1
    ensures forall k :: 0 <= k < i ==> r[k] == refs[k]
    ensures forall k :: i <= k < |r| ==> r[k] == refs[k + 1]
  {
    refs[..i] + refs[i + 1..]
  }

  /** The removal drops exactly the one reference at `i`. */
  lemma RemovedDropsOne(refs: seq<OwnerReference>, i: int)
    requires 0 <= i < |refs|
    ensures multiset(Removed(refs, i)) + multiset{refs[i]} == multiset(refs)
  {
    assert refs == refs[..i] + [refs[i]] + refs[i + 1..];
  }

  /** A BuildRun that names the Build, without its first reference to it. */
  function Disowned(b: BuildRunObject, kind: string, name: string): (d: BuildRunObject)
    requires OwnerIndex(b.ownerReferences, kind, name) >= 0
    ensures d.name == b.name && d.namespace == b.namespace
    ensures d.ownerReferences == Removed(b.ownerReferences, OwnerIndex(b.ownerReferences, kind, name))
  {
    b.(ownerReferences := Removed(b.ownerReferences, OwnerIndex(b.ownerReferences, kind, name)))
  }

  /**
   * removeOwnerReferenceByIndex on the slice's backing array: the references after `i`
   * move one place down, the last slot keeps its old value, and the slice is one shorter.
   */
  method RemoveOwnerReferenceByIndex(references: array<OwnerReference>, length: int, i: int) returns (newLength: int)
    requires 0 <= i < length <= references.Length
    modifies references
    ensures newLength == length - 1
    ensures references[..newLength] == Removed(old(references[..length]), i)
    ensures references[newLength..] == old(references[newLength..])
  {
    ghost var before := references[..];
    var k := i;
    while k < length - 1
      invariant i <= k <= length - 1
      invariant forall j :: 0 <= j < i ==> references[j] == before[j]
      invariant forall j :: i <= j < k ==> references[j] == before[j + 1]
      invariant forall j :: k <= j < references.Length ==> references[j] == before[j]
    {
      references[k] := references[k + 1];
      k := k + 1;
    }
    newLength := length - 1;
    ghost var removed := Removed(before[..length], i);
    assert old(references[..length]) == before[..length];
    assert forall j :: 0 <= j < newLength ==> references[..newLength][j] == removed[j];
    assert references[..newLength] == removed;
    assert forall j :: 0 <= j < references.Length - newLength ==> references[newLength..][j] == before[newLength..][j];
    assert old(references[newLength..]) == before[newLength..];
  }

  /** What one pass over the BuildRuns does: the updates it sends, the last reference error, and the update error that stopped it. */
  datatype Pass = Pass(sent: seq<BuildRunObject>, refError: Option<string>, err: Option<string>)

  /** `sent` and `refError` ahead of the rest of a pass. */
  function Join(sent: seq<BuildRunObject>, refError: Option<string>, rest: Pass): Pass {
    Pass(sent + rest.sent, if rest.refError.Some? then rest.refError else refError, rest.err)
  }

  /**
   * The pass with `atBuildDeletion` true: each BuildRun without an owner reference to the
   * Build gets a controller reference and is updated, whether or not setting the
   * reference failed; the first failed update ends the pass.
   */
  function AddPass(
    kind: string, name: string, items: seq<BuildRunObject>,
    setRef: BuildRunObject -> (BuildRunObject, Option<string>), update: BuildRunObject -> Option<string>)
    : Pass
    decreases |items|
  {
    if |items| == 0 then Pass([], None, None)
    else if OwnerIndex(items[0].ownerReferences, kind, name) != -1 then AddPass(kind, name, items[1..], setRef, update)
    else
      var b := setRef(items[0]).0;
      var refError := setRef(items[0]).1;
      if update(b).Some? then Pass([b], refError, update(b))
      else Join([b], refError, AddPass(kind, name, items[1..], setRef, update))
  }

  /**
   * The pass with `atBuildDeletion` false: each BuildRun with an owner reference to the
   * Build loses the first such reference and is updated; the first failed update ends
   * the pass.
   */
  function RemovePass(kind: string, name: string, items: seq<BuildRunObject>, update: BuildRunObject -> Option<string>)
    : Pass
    decreases |items|
  {
    if |items| == 0 then Pass([], None, None)
    else
      var idx := OwnerIndex(items[0].ownerReferences, kind, name);
      if idx == -1 then RemovePass(kind, name, items[1..], update)
      else
        var b := Disowned(items[0], kind, name);
        if update(b).Some? then Pass([b], None, update(b))
        else Join([b], None, RemovePass(kind, name, items[1..], update))
  }

  /** What the `atBuildDeletion == true` pass does with one BuildRun. */
  function AddStep(
    kind: string, name: string, item: BuildRunObject,
    setRef: BuildRunObject -> (BuildRunObject, Option<string>), update: BuildRunObject -> Option<string>)
    : Pass
  {
    if OwnerIndex(item.ownerReferences, kind, name) != -1 then Pass([], None, None)
    else
      var b := setRef(item).0;
      Pass([b], setRef(item).1, update(b))
  }

  /** AddPass is AddStep on each BuildRun in turn, up to the first failed update. */
  lemma AddPassStep(
    kind: string, name: string, items: seq<BuildRunObject>, i: int,
    setRef: BuildRunObject -> (BuildRunObject, Option<string>), update: BuildRunObject -> Option<string>,
    done: seq<BuildRunObject>, refError: Option<string>, all: Pass)
    requires 0 <= i < |items|
    requires Join(done, refError, AddPass(kind, name, items[i..], setRef, update)) == all
    ensures var p := AddStep(kind, name, items[i], setRef, update);
      var r := if p.refError.Some? then p.refError else refError;
      if p.err.Some? then all == Pass(done + p.sent, r, p.err)
      else Join(done + p.sent, r, AddPass(kind, name, items[i + 1..], setRef, update)) == all
  {
    assert items[i..][1..] == items[i + 1..];
    var p := AddStep(kind, name, items[i], setRef, update);
    var rest := AddPass(kind, name, items[i + 1..], setRef, update);
    assert done + (p.sent + rest.sent) == done + p.sent + rest.sent;
    assert done + [] == done;
  }

  /** What the `atBuildDeletion == false` pass does with one BuildRun. */
  function RemoveStep(kind: string, name: string, item: BuildRunObject, update: BuildRunObject -> Option<string>): Pass {
    var idx := OwnerIndex(item.ownerReferences, kind, name);
    if idx == -1 then Pass([], None, None)
    else
      var b := Disowned(item, kind, name);
      Pass([b], None, update(b))
  }

  /** RemovePass is RemoveStep on each BuildRun in turn, up to the first failed update. */
  lemma RemovePassStep(
    kind: string, name: string, items: seq<BuildRunObject>, i: int, update: BuildRunObject -> Option<string>,
    done: seq<BuildRunObject>, all: Pass)
    requires 0 <= i < |items|
    requires Join(done, None, RemovePass(kind, name, items[i..], update)) == all
    ensures var p := RemoveStep(kind, name, items[i], update);
      if p.err.Some? then all == Pass(done + p.sent, None, p.err)
      else Join(done + p.sent, None, RemovePass(kind, name, items[i + 1..], update)) == all
  {
    assert items[i..][1..] == items[i + 1..];
    var p := RemoveStep(kind, name, items[i], update);
    var rest := RemovePass(kind, name, items[i + 1..], update);
    assert done + (p.sent + rest.sent) == done + p.sent + rest.sent;
    assert done + [] == done;
  }

  /** The Build's status after a pass whose last reference error, if any, is `refError`. */
  function StatusAfter(status: Beta.BuildStatus, refError: Option<string>): Beta.BuildStatus {
    if refError.Some? then
      status.(reason := Some(SetOwnerReferenceFailed), message := Some(SetOwnerReferenceMessage + refError.value))
    else status
  }

  /**
   * OwnerRef: the Build being validated and the updates sent to the cluster so far.
   * ObjectMeta is opaque here, so the Build's `metadata.name` that the source reads is
   * the separate constant `buildName`; callers pass the name of `build`.
   */
  class OwnerRef {
    var build: Beta.Build
    const buildName: string
    var sent: seq<BuildRunObject>

    constructor(build: Beta.Build, buildName: string)
      ensures this.build == build && this.buildName == buildName && sent == []
    {
      this.build := build;
      this.buildName := buildName;
      sent := [];
    }

    /** validateBuildOwnerReference: the index of the first reference to the Build, or -1. */
    method ValidateBuildOwnerReference(references: seq<OwnerReference>) returns (index: int)
      ensures index == OwnerIndex(references, build.typeMeta.kind, buildName)
    {
      for i := 0 to |references|
        invariant forall k :: 0 <= k < i ==> !Names(references[k], build.typeMeta.kind, buildName)
      {
        if references[i].kind == build.typeMeta.kind && references[i].name == buildName {
          return i;
        }
      }
      return -1;
    }

    /**
     * One BuildRun of the `atBuildDeletion == true` loop: set the controller reference,
     * record a failure to do so in the Build's status, and update the BuildRun.
     */
    method AddOne(
      buildRun: BuildRunObject,
      setRef: BuildRunObject -> (BuildRunObject, Option<string>), update: BuildRunObject -> Option<string>)
      returns (err: Option<string>)
      modifies this
      ensures var p := AddStep(old(build).typeMeta.kind, buildName, buildRun, setRef, update);
        && build == old(build).(status := StatusAfter(old(build).status, p.refError))
        && sent == old(sent) + p.sent && err == p.err
    {
      var index := ValidateBuildOwnerReference(buildRun.ownerReferences);
      err := None;
      if index == -1 {
        var result := setRef(buildRun);
        var updated := result.0;
        if result.1.Some? {
          build := build.(status := build.status.(reason := Some(SetOwnerReferenceFailed),
            message := Some(SetOwnerReferenceMessage + result.1.value)));
        }
        sent := sent + [updated];
        err := update(updated);
      }
    }

    /** The `atBuildDeletion == true` loop of ValidatePath. */
    method AddOwnerReferences(
      items: seq<BuildRunObject>,
      setRef: BuildRunObject -> (BuildRunObject, Option<string>), update: BuildRunObject -> Option<string>)
      returns (err: Option<string>)
      modifies this
      ensures var p := AddPass(old(build).typeMeta.kind, buildName, items, setRef, update);
        && err == p.err && sent == old(sent) + p.sent
        && build == old(build).(status := StatusAfter(old(build).status, p.refError))
    {
      ghost var kind := build.typeMeta.kind;
      ghost var all := AddPass(kind, buildName, items, setRef, update);
      ghost var done: seq<BuildRunObject> := [];
      ghost var refError: Option<string> := None;
      assert items[0..] == items;
      assert Join([], None, all) == all;
      for i := 0 to |items|
        invariant build.typeMeta.kind == kind
        invariant Join(done, refError, AddPass(kind, buildName, items[i..], setRef, update)) == all
        invariant sent == old(sent) + done
        invariant build == old(build).(status := StatusAfter(old(build).status, refError))
      {
        AddPassStep(kind, buildName, items, i, setRef, update, done, refError, all);
        ghost var step := AddStep(kind, buildName, items[i], setRef, update);
        var updateErr := AddOne(items[i], setRef, update);
        done := done + step.sent;
        refError := if step.refError.Some? then step.refError else refError;
        if updateErr.Some? {
          return updateErr;
        }
      }
      assert items[|items|..] == [];
      assert done + [] == done;
      return None;
    }

    /** One BuildRun of the `atBuildDeletion == false` loop: drop its reference to the Build and update it. */
    method RemoveOne(buildRun: BuildRunObject, update: BuildRunObject -> Option<string>) returns (err: Option<string>)
      modifies this
      ensures var p := RemoveStep(old(build).typeMeta.kind, buildName, buildRun, update);
        && build == old(build) && sent == old(sent) + p.sent && err == p.err
    {
      var index := ValidateBuildOwnerReference(buildRun.ownerReferences);
      if index != -1 {
        var updated := buildRun.(ownerReferences := Removed(buildRun.ownerReferences, index));
        sent := sent + [updated];
        err := update(updated);
      } else {
        err := None;
      }
    }

    /** The `atBuildDeletion == false` loop of ValidatePath. */
    method RemoveOwnerReferences(items: seq<BuildRunObject>, update: BuildRunObject -> Option<string>)
      returns (err: Option<string>)
      modifies this
      ensures var p := RemovePass(old(build).typeMeta.kind, buildName, items, update);
        && build == old(build) && sent == old(sent) + p.sent && err == p.err
    {
      ghost var kind := build.typeMeta.kind;
      ghost var all := RemovePass(kind, buildName, items, update);
      ghost var done: seq<BuildRunObject> := [];
      assert items[0..] == items;
      assert Join([], None, all) == all;
      for i := 0 to |items|
        invariant build == old(build)
        invariant Join(done, None, RemovePass(kind, buildName, items[i..], update)) == all
        invariant sent == old(sent) + done
      {
        RemovePassStep(kind, buildName, items, i, update, done, all);
        ghost var step := RemoveStep(kind, buildName, items[i], update);
        var updateErr := RemoveOne(items[i], update);
        done := done + step.sent;
        if updateErr.Some? {
          return updateErr;
        }
      }
      assert items[|items|..] == [];
      assert done + [] == done;
      return None;
    }

    /**
     * ValidatePath. A failed listing is returned as it is; without a retention or an
     * `atBuildDeletion` setting nothing happens; otherwise the pass that the setting
     * selects runs over the listed BuildRuns.
     */
    method ValidatePath(
      list: Result<seq<BuildRunObject>, string>,
      setRef: BuildRunObject -> (BuildRunObject, Option<string>), update: BuildRunObject -> Option<string>)
      returns (err: Option<string>)
      modifies this
      ensures list.Err? ==> err == Some(list.error) && build == old(build) && sent == old(sent)
      ensures (list.Ok? && (old(build).spec.retention.None? || old(build).spec.retention.value.atBuildDeletion.None?)) ==>
        err.None? && build == old(build) && sent == old(sent)
      ensures (list.Ok? && old(build).spec.retention.Some? && old(build).spec.retention.value.atBuildDeletion == Some(true)) ==>
        var p := AddPass(old(build).typeMeta.kind, buildName, list.value, setRef, update);
        && err == p.err && sent == old(sent) + p.sent
        && build == old(build).(status := StatusAfter(old(build).status, p.refError))
      ensures (list.Ok? && old(build).spec.retention.Some? && old(build).spec.retention.value.atBuildDeletion == Some(false)) ==>
        var p := RemovePass(old(build).typeMeta.kind, buildName, list.value, update);
        err == p.err && sent == old(sent) + p.sent && build == old(build)
    {
      if list.Err? {
        return Some(list.error);
      }
      var buildRunList := list.value;

      if build.spec.retention.Some? && build.spec.retention.value.atBuildDeletion.Some? {
        if build.spec.retention.value.atBuildDeletion.value {
          err := AddOwnerReferences(buildRunList, setRef, update);
          return err;
        } else {
          err := RemoveOwnerReferences(buildRunList, update);
          return err;
        }
      }
      return None;
    }
  }

  // ---------------------------------------------------------------------------
  // Properties of the passes
  // ---------------------------------------------------------------------------

  /**
   * With `atBuildDeletion` true, only BuildRuns without an owner reference to the Build
   * are updated, each as SetControllerReference leaves it.
   */
  lemma {:induction false} AddPassSent(
    kind: string, name: string, items: seq<BuildRunObject>,
    setRef: BuildRunObject -> (BuildRunObject, Option<string>), update: BuildRunObject -> Option<string>)
    ensures forall s :: s in AddPass(kind, name, items, setRef, update).sent ==>
      exists b :: b in items && OwnerIndex(b.ownerReferences, kind, name) == -1 && s == setRef(b).0
    decreases |items|
  {
    if |items| > 0 {
      AddPassSent(kind, name, items[1..], setRef, update);
      assert forall b :: b in items[1..] ==> b in items;
    }
  }

  /** When no update fails, every BuildRun without an owner reference to the Build is updated. */
  lemma {:induction false} AddPassComplete(
    kind: string, name: string, items: seq<BuildRunObject>,
    setRef: BuildRunObject -> (BuildRunObject, Option<string>), update: BuildRunObject -> Option<string>)
    requires AddPass(kind, name, items, setRef, update).err.None?
    ensures forall b :: b in items && OwnerIndex(b.ownerReferences, kind, name) == -1 ==>
      setRef(b).0 in AddPass(kind, name, items, setRef, update).sent
    decreases |items|
  {
    if |items| > 0 {
      AddPassComplete(kind, name, items[1..], setRef, update);
      assert forall b :: b in items ==> b == items[0] || b in items[1..];
    }
  }

  /**
   * With `atBuildDeletion` false, only BuildRuns with an owner reference to the Build
   * are updated, each without its first such reference.
   */
  lemma {:induction false} RemovePassSent(kind: string, name: string, items: seq<BuildRunObject>, update: BuildRunObject -> Option<string>)
    ensures forall s :: s in RemovePass(kind, name, items, update).sent ==>
      exists b :: b in items && OwnerIndex(b.ownerReferences, kind, name) >= 0 && s == Disowned(b, kind, name)
    decreases |items|
  {
    if |items| > 0 {
      RemovePassSent(kind, name, items[1..], update);
      assert forall b :: b in items[1..] ==> b in items;
    }
  }

  /** When no update fails, every BuildRun with an owner reference to the Build is updated. */
  lemma {:induction false} RemovePassComplete(kind: string, name: string, items: seq<BuildRunObject>, update: BuildRunObject -> Option<string>)
    requires RemovePass(kind, name, items, update).err.None?
    ensures forall b :: b in items && OwnerIndex(b.ownerReferences, kind, name) >= 0 ==>
      Disowned(b, kind, name) in RemovePass(kind, name, items, update).sent
    decreases |items|
  {
    if |items| > 0 {
      RemovePassComplete(kind, name, items[1..], update);
      assert forall b :: b in items ==> b == items[0] || b in items[1..];
    }
  }

  /** A pass stops at its first failed update: that update is the last one sent, and every earlier one succeeded. */
  predicate StopsAtFirstFailure(p: Pass, update: BuildRunObject -> Option<string>) {
    && (forall k :: 0 <= k < |p.sent| - 1 ==> update(p.sent[k]).None?)
    && (p.err.None? ==> forall k :: 0 <= k < |p.sent| ==> update(p.sent[k]).None?)
    && (p.err.Some? ==> |p.sent| > 0 && update(p.sent[|p.sent| - 1]) == p.err)
  }

  /** A successful update ahead of a pass that stops at its first failure keeps that property. */
  lemma StopsAfterSuccess(b: BuildRunObject, refError: Option<string>, rest: Pass, update: BuildRunObject -> Option<string>)
    requires update(b).None? && StopsAtFirstFailure(rest, update)
    ensures StopsAtFirstFailure(Join([b], refError, rest), update)
  {
    var p := Join([b], refError, rest);
    assert forall k :: 1 <= k < |p.sent| ==> p.sent[k] == rest.sent[k - 1];
  }

  lemma {:induction false} AddPassStops(
    kind: string, name: string, items: seq<BuildRunObject>,
    setRef: BuildRunObject -> (BuildRunObject, Option<string>), update: BuildRunObject -> Option<string>)
    ensures StopsAtFirstFailure(AddPass(kind, name, items, setRef, update), update)
    decreases |items|
  {
    if |items| > 0 {
      AddPassStops(kind, name, items[1..], setRef, update);
      if OwnerIndex(items[0].ownerReferences, kind, name) == -1 {
        var b := setRef(items[0]).0;
        if update(b).None? {
          StopsAfterSuccess(b, setRef(items[0]).1, AddPass(kind, name, items[1..], setRef, update), update);
        }
      }
    }
  }

  lemma {:induction false} RemovePassStops(kind: string, name: string, items: seq<BuildRunObject>, update: BuildRunObject -> Option<string>)
    ensures StopsAtFirstFailure(RemovePass(kind, name, items, update), update)
    decreases |items|
  {
    if |items| > 0 {
      RemovePassStops(kind, name, items[1..], update);
      if OwnerIndex(items[0].ownerReferences, kind, name) != -1 {
        var b := Disowned(items[0], kind, name);
        if update(b).None? {
          StopsAfterSuccess(b, None, RemovePass(kind, name, items[1..], update), update);
        }
      }
    }
  }
}
