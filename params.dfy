// The BuildRun reconciler's parameter merge (pkg/reconciler/buildrun/resources/params.go):
// `OverrideParams` overrides the entries of a parameter list with the entries of a
// second list that carry the same name, in place, and appends the names that only the
// second list has.

module Params {
  import opened Wrappers

  /** v1alpha1.Param: a name and a value that populate a strategy parameter. */
  datatype Param = Param(name: string, value: string)

  function Names(s: seq<Param>): set<string> {
    set p | p in s :: p.name
  }

  /** The last entry of `ov` named `n`, if any. */
  function LastOverride(n: string, ov: seq<Param>): Option<Param>
  {
    if |ov| == 0 then None
    else if ov[|ov| - 1].name == n then Some(ov[|ov| - 1])
    else LastOverride(n, ov[..|ov| - 1])
  }

  /** LastOverride finds an entry exactly when one has the name, and no later entry has it. */
  lemma {:induction false} LastOverrideSpec(n: string, ov: seq<Param>)
    ensures LastOverride(n, ov).Some? <==> n in Names(ov)
    ensures LastOverride(n, ov).Some? ==>
      exists j :: 0 <= j < |ov| && ov[j] == LastOverride(n, ov).value && ov[j].name == n
        && forall k :: j < k < |ov| ==> ov[k].name != n
  {
    if |ov| > 0 {
      var init := ov[..|ov| - 1];
      LastOverrideSpec(n, init);
      assert ov == init + [ov[|ov| - 1]];
      NamesSnoc(init, ov[|ov| - 1]);
      if ov[|ov| - 1].name != n && LastOverride(n, ov).Some? {
        var j :| 0 <= j < |init| && init[j] == LastOverride(n, init).value && init[j].name == n
          && forall k :: j < k < |init| ==> init[k].name != n;
        assert ov[j] == init[j];
      }
    }
  }

  lemma NamesSnoc(s: seq<Param>, p: Param)
    ensures Names(s + [p]) == Names(s) + {p.name}
  {
    assert forall x :: x in s + [p] <==> x in s || x == p;
  }

  /** An original entry after the override pass: the last override with its name, or itself. */
  function Overridden(o: Param, ov: seq<Param>): (r: Param)
    ensures r.name == o.name
  {
    match LastOverride(o.name, ov)
    case Some(p) =>
      LastOverrideSpec(o.name, ov);
      Param(p.name, p.value)
    case None => o
  }

  /**
   * The first entry of each name of `ov` that is not in `seen` and not taken before,
   * in the order of `ov`.
   */
  function FreshFirst(ov: seq<Param>, seen: set<string>): seq<Param>
  {
    if |ov| == 0 then []
    else if ov[0].name in seen then FreshFirst(ov[1..], seen)
    else [ov[0]] + FreshFirst(ov[1..], seen + {ov[0].name})
  }

  lemma NamesCons(p: Param, s: seq<Param>)
    ensures Names([p] + s) == {p.name} + Names(s)
  {
    assert forall x :: x in [p] + s <==> x == p || x in s;
  }

  /** FreshFirst takes the names of `ov` outside `seen`. */
  lemma {:induction false} FreshFirstNames(ov: seq<Param>, seen: set<string>)
    ensures Names(FreshFirst(ov, seen)) == Names(ov) - seen
  {
    if |ov| > 0 {
      var n := ov[0].name;
      NamesCons(ov[0], ov[1..]);
      assert ov == [ov[0]] + ov[1..];
      if n in seen {
        FreshFirstNames(ov[1..], seen);
      } else {
        FreshFirstNames(ov[1..], seen + {n});
        NamesCons(ov[0], FreshFirst(ov[1..], seen + {n}));
      }
    }
  }

  /** FreshFirst takes each of those names once. */
  lemma {:induction false} FreshFirstLength(ov: seq<Param>, seen: set<string>)
    ensures |FreshFirst(ov, seen)| == |Names(ov) - seen|
  {
    if |ov| > 0 {
      var rest := ov[1..];
      assert ov == [ov[0]] + rest;
      NamesMinusCons(ov[0], rest, seen);
      if ov[0].name in seen {
        FreshFirstLength(rest, seen);
      } else {
        FreshFirstLength(rest, seen + {ov[0].name});
      }
    }
  }

  /** The names of `[p] + rest` outside `seen`, split into `p`'s and the others. */
  lemma NamesMinusCons(p: Param, rest: seq<Param>, seen: set<string>)
    ensures p.name in seen ==> Names([p] + rest) - seen == Names(rest) - seen
    ensures p.name !in seen ==>
      |Names([p] + rest) - seen| == |Names(rest) - (seen + {p.name})| + 1
  {
    NamesCons(p, rest);
    if p.name !in seen {
      var others := Names(rest) - (seen + {p.name});
      assert Names([p] + rest) - seen == others + {p.name};
      assert p.name !in others;
    }
  }

  /** FreshFirst takes entries of `ov`, with pairwise distinct names. */
  lemma {:induction false} FreshFirstDistinct(ov: seq<Param>, seen: set<string>)
    ensures forall p :: p in FreshFirst(ov, seen) ==> p in ov && p.name !in seen
    ensures forall i, j :: 0 <= i < j < |FreshFirst(ov, seen)| ==> FreshFirst(ov, seen)[i].name != FreshFirst(ov, seen)[j].name
  {
    if |ov| > 0 {
      var n := ov[0].name;
      var rest := ov[1..];
      if n in seen {
        FreshFirstDistinct(rest, seen);
      } else {
        FreshFirstDistinct(rest, seen + {n});
        var tail := FreshFirst(rest, seen + {n});
        var r := FreshFirst(ov, seen);
        assert r == [ov[0]] + tail;
        forall i, j | 0 <= i < j < |r| ensures r[i].name != r[j].name {
          assert r[j] == tail[j - 1] && r[j] in tail;
          if i > 0 {
            assert r[i] == tail[i - 1];
          }
        }
      }
    }
  }

  /** FreshFirst of a list extended by one entry. */
  lemma {:induction false} FreshFirstSnoc(s: seq<Param>, p: Param, seen: set<string>)
    ensures FreshFirst(s + [p], seen) ==
      FreshFirst(s, seen) + (if p.name in seen + Names(FreshFirst(s, seen)) then [] else [p])
  {
    if |s| == 0 {
      assert s + [p] == [p];
    } else {
      var q := s[0];
      assert (s + [p])[0] == q;
      assert (s + [p])[1..] == s[1..] + [p];
      if q.name in seen {
        FreshFirstSnoc(s[1..], p, seen);
      } else {
        FreshFirstSnoc(s[1..], p, seen + {q.name});
        NamesCons(q, FreshFirst(s[1..], seen + {q.name}));
      }
    }
  }

  lemma NamesAppend(a: seq<Param>, b: seq<Param>)
    ensures Names(a + b) == Names(a) + Names(b)
  {
    assert forall x :: x in a + b <==> x in a || x in b;
  }

  /** The original entries after the override pass. */
  function Merged(original: seq<Param>, overrides: seq<Param>): (r: seq<Param>)
    ensures |r| == |original|
  {
    seq(|original|, i requires 0 <= i < |original| => Overridden(original[i], overrides))
  }

  /** Specification of OverrideParams. */
  function OverrideParamsSpec(original: seq<Param>, overrides: seq<Param>): seq<Param>
  {
    if |overrides| == 0 then original
    else if |original| == 0 then overrides
    else Merged(original, overrides) + FreshFirst(overrides, Names(Merged(original, overrides)))
  }

  /** The override pass of OverrideParams: each entry of the array takes the value of every
      override with its name in turn, so the last one wins. */
  method OverrideInPlace(originalParams: array<Param>, overrideParams: seq<Param>)
    modifies originalParams
    ensures originalParams[..] == Merged(old(originalParams[..]), overrideParams)
  {
    ghost var original := originalParams[..];
    var i := 0;
    while i < originalParams.Length
      invariant 0 <= i <= originalParams.Length
      invariant forall k :: 0 <= k < i ==> originalParams[k] == Overridden(original[k], overrideParams)
      invariant forall k :: i <= k < originalParams.Length ==> originalParams[k] == original[k]
    {
      var o := originalParams[i];
      var j := 0;
      while j < |overrideParams|
        invariant 0 <= j <= |overrideParams|
        invariant originalParams[i] == Overridden(o, overrideParams[..j])
        invariant forall k :: 0 <= k < i ==> originalParams[k] == Overridden(original[k], overrideParams)
        invariant forall k :: i < k < originalParams.Length ==> originalParams[k] == original[k]
      {
        var p := overrideParams[j];
        assert overrideParams[..j + 1][..j] == overrideParams[..j];
        if o.name == p.name {
          originalParams[i] := Param(p.name, p.value);
        }
        j := j + 1;
      }
      assert overrideParams[..j] == overrideParams;
      i := i + 1;
    }
    assert originalParams[..] == Merged(original, overrideParams);
  }

  /** The append pass of OverrideParams: an override is appended when no entry of the
      list as it stands has its name. */
  method AppendMissing(merged: seq<Param>, overrideParams: seq<Param>) returns (result: seq<Param>)
    ensures result == merged + FreshFirst(overrideParams, Names(merged))
  {
    result := merged;
    var k := 0;
    while k < |overrideParams|
      invariant 0 <= k <= |overrideParams|
      invariant result == merged + FreshFirst(overrideParams[..k], Names(merged))
    {
      var p := overrideParams[k];
      var auxFlag := true;
      var m := 0;
      while m < |result|
        invariant 0 <= m <= |result|
        invariant auxFlag <==> forall x :: 0 <= x < m ==> result[x].name != p.name
      {
        if p.name == result[m].name {
          auxFlag := false;
        }
        m := m + 1;
      }
      FreshFirstSnoc(overrideParams[..k], p, Names(merged));
      assert overrideParams[..k + 1] == overrideParams[..k] + [p];
      NamesAppend(merged, FreshFirst(overrideParams[..k], Names(merged)));
      assert auxFlag <==> p.name !in Names(result) by {
        if !auxFlag {
          var x :| 0 <= x < |result| && result[x].name == p.name;
          assert result[x] in result;
        }
      }
      if auxFlag {
        result := result + [p];
      }
      k := k + 1;
    }
    assert overrideParams[..k] == overrideParams;
  }

  /**
   * OverrideParams. The override pass writes into the caller's array, which the
   * returned list starts from; the append pass grows the returned list.
   */
  method OverrideParams(originalParams: array<Param>, overrideParams: seq<Param>) returns (result: seq<Param>)
    modifies originalParams
    ensures result == OverrideParamsSpec(old(originalParams[..]), overrideParams)
    ensures originalParams[..] ==
      if |overrideParams| == 0 || originalParams.Length == 0 then old(originalParams[..])
      else result[..originalParams.Length]
  {
    if |overrideParams| == 0 {
      return originalParams[..];
    }
    if originalParams.Length == 0 && |overrideParams| > 0 {
      return overrideParams;
    }
    OverrideInPlace(originalParams, overrideParams);
    result := AppendMissing(originalParams[..], overrideParams);
  }

  // ---------------------------------------------------------------------------
  // Properties
  // ---------------------------------------------------------------------------

  /** An empty override list leaves the original list as it is. */
  lemma NoOverrides(original: seq<Param>)
    ensures OverrideParamsSpec(original, []) == original
  {
  }

  /** An empty original list yields the override list as it is, duplicates included. */
  lemma NoOriginals(overrides: seq<Param>)
    requires |overrides| > 0
    ensures OverrideParamsSpec([], overrides) == overrides
  {
  }

  /**
   * Every original entry keeps its position; one whose name occurs among the
   * overrides takes the value of the last such override, and the others keep their value.
   */
  lemma OverrideKeepsPositions(original: seq<Param>, overrides: seq<Param>)
    requires |overrides| > 0
    ensures |OverrideParamsSpec(original, overrides)| >= |original|
    ensures forall i :: 0 <= i < |original| ==>
      && OverrideParamsSpec(original, overrides)[i].name == original[i].name
      && (original[i].name !in Names(overrides) ==> OverrideParamsSpec(original, overrides)[i] == original[i])
      && (original[i].name in Names(overrides) ==>
            exists j :: 0 <= j < |overrides| && overrides[j] == OverrideParamsSpec(original, overrides)[i]
              && forall k :: j < k < |overrides| ==> overrides[k].name != original[i].name)
  {
    var r := OverrideParamsSpec(original, overrides);
    forall i | 0 <= i < |original|
      ensures && r[i].name == original[i].name
        && (original[i].name !in Names(overrides) ==> r[i] == original[i])
        && (original[i].name in Names(overrides) ==>
              exists j :: 0 <= j < |overrides| && overrides[j] == r[i]
                && forall k :: j < k < |overrides| ==> overrides[k].name != original[i].name)
    {
      LastOverrideSpec(original[i].name, overrides);
    }
  }

  /** The names of the entries after the override pass are the original names. */
  lemma MergedNames(original: seq<Param>, overrides: seq<Param>)
    ensures Names(Merged(original, overrides)) == Names(original)
  {
    var merged := Merged(original, overrides);
    forall n | n in Names(original) ensures n in Names(merged) {
      var i :| 0 <= i < |original| && original[i].name == n;
      assert merged[i] in merged;
    }
  }

  /**
   * The override names that the original list lacks are appended after the original
   * entries, each once, in the order of their first occurrence among the overrides.
   */
  lemma OverrideAppendsNewNames(original: seq<Param>, overrides: seq<Param>)
    requires |original| > 0 && |overrides| > 0
    ensures OverrideParamsSpec(original, overrides)[|original|..] == FreshFirst(overrides, Names(original))
    ensures Names(OverrideParamsSpec(original, overrides)[|original|..]) == Names(overrides) - Names(original)
    ensures forall p :: p in OverrideParamsSpec(original, overrides)[|original|..] ==> p in overrides
  {
    MergedNames(original, overrides);
    FreshFirstNames(overrides, Names(original));
    FreshFirstDistinct(overrides, Names(original));
  }

  /**
   * Every override name appears in the result, which has the original entries and one
   * entry per override name the original list lacks.
   */
  lemma OverrideResultNames(original: seq<Param>, overrides: seq<Param>)
    requires |original| > 0 && |overrides| > 0
    ensures Names(OverrideParamsSpec(original, overrides)) == Names(original) + Names(overrides)
    ensures |OverrideParamsSpec(original, overrides)| == |original| + |Names(overrides) - Names(original)|
  {
    var merged := Merged(original, overrides);
    MergedNames(original, overrides);
    FreshFirstLength(overrides, Names(original));
    FreshFirstNames(overrides, Names(original));
    NamesAppend(merged, FreshFirst(overrides, Names(original)));
  }
}
