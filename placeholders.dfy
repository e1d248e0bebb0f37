// The placeholder rewriting of the BuildRun reconciler
// (pkg/reconciler/buildrun/resources/taskrun.go, getStringTransformations): two
// legacy placeholders in a strategy step's command, arguments and image are
// rewritten to the Tekton parameter references that replaced them.
//
// The rewriting table is a Go map, so the order in which its two entries are applied
// is not fixed; the method takes the iteration order as an input and is proved to
// produce the same text in either order.

module Placeholders {
  /** `p` is a prefix of `s`. */
  predicate StartsWith(s: string, p: string) {
    |p| <= |s| && s[..|p|] == p
  }

  /** `x` and `p` differ at a position both have, so neither is a prefix of the other. */
  predicate Diverges(x: string, p: string) {
    exists d :: 0 <= d < |x| && d < |p| && x[d] != p[d]
  }

  /** `p` occurs somewhere in `s`. */
  predicate Contains(s: string, p: string)
    decreases |s|
  {
    StartsWith(s, p) || (|s| > 0 && Contains(s[1..], p))
  }

  /**
   * strings.ReplaceAll for a non-empty `pat`: the occurrences of `pat` are replaced
   * from left to right, and the text a replacement produces is not scanned again.
   */
  function ReplaceAll(s: string, pat: string, rep: string): string
    requires |pat| > 0
    decreases |s|
  {
    if |s| == 0 then ""
    else if StartsWith(s, pat) then rep + ReplaceAll(s[|pat|..], pat, rep)
    else [s[0]] + ReplaceAll(s[1..], pat, rep)
  }

  const ImagePlaceholder := "$(build.output.image)"
  const ImageReplacement := "$(params.shp-output-image)"
  const ContextDirPlaceholder := "$(build.source.contextDir)"
  const ContextDirReplacement := "$(inputs.params.CONTEXT_DIR)"

  /** The table of getStringTransformations. */
  const Transformations: map<string, string> :=
    map[ImagePlaceholder := ImageReplacement, ContextDirPlaceholder := ContextDirReplacement]

  /** The two iteration orders of the table. */
  predicate IsTableOrder(keys: seq<string>) {
    keys == [ImagePlaceholder, ContextDirPlaceholder] || keys == [ContextDirPlaceholder, ImagePlaceholder]
  }

  /** Applies the table's entries in the order `keys`. */
  function ApplyInOrder(s: string, keys: seq<string>): string
    requires forall k :: k in keys ==> k in Transformations && |k| > 0
    decreases |keys|
  {
    if |keys| == 0 then s
    else ApplyInOrder(ReplaceAll(s, keys[0], Transformations[keys[0]]), keys[1..])
  }

  /** The rewriting, independent of the order (see TransformOrderIrrelevant). */
  function Transform(s: string): string {
    ReplaceAll(ReplaceAll(s, ImagePlaceholder, ImageReplacement), ContextDirPlaceholder, ContextDirReplacement)
  }

  /**
   * getStringTransformations: runs the text through every entry of the table, in the
   * map's iteration order `keys`.
   */
  method GetStringTransformations(fullText: string, keys: seq<string>) returns (text: string)
    requires IsTableOrder(keys)
    ensures text == Transform(fullText)
  {
    assert |keys| == 2;
    text := fullText;
    for i := 0 to |keys|
      invariant ApplyInOrder(text, keys[i..]) == ApplyInOrder(fullText, keys)
    {
      assert keys[i..][1..] == keys[i + 1..];
      text := ReplaceAll(text, keys[i], Transformations[keys[i]]);
    }
    assert keys[|keys|..] == [] && keys[1..][1..] == [];
    var first := ReplaceAll(fullText, keys[0], Transformations[keys[0]]);
    assert ApplyInOrder(fullText, keys) == ApplyInOrder(first, keys[1..]);
    assert keys[1..][0] == keys[1];
    var second := ReplaceAll(first, keys[1], Transformations[keys[1]]);
    assert ApplyInOrder(first, keys[1..]) == ApplyInOrder(second, []);
    assert text == second;
    if keys != [ImagePlaceholder, ContextDirPlaceholder] {
      TransformOrderIrrelevant(fullText);
    }
  }

  // ---------------------------------------------------------------------------
  // Facts about ReplaceAll
  // ---------------------------------------------------------------------------

  lemma {:induction false} ContainsLength(s: string, p: string)
    requires Contains(s, p)
    ensures |p| <= |s|
    decreases |s|
  {
    if !StartsWith(s, p) {
      ContainsLength(s[1..], p);
    }
  }

  /** A text without `pat` is left as it is. */
  lemma {:induction false} ReplaceAbsent(s: string, pat: string, rep: string)
    requires |pat| > 0 && !Contains(s, pat)
    ensures ReplaceAll(s, pat, rep) == s
    decreases |s|
  {
    if |s| > 0 {
      ReplaceAbsent(s[1..], pat, rep);
    }
  }

  /**
   * When every replacement text starts with `c`, a prefix of the output without `c`
   * is an unchanged prefix of the input.
   */
  lemma {:induction false} PrefixWithoutMarker(t: string, pat: string, rep: string, m: nat, c: char)
    requires |pat| > 0 && |rep| > 0 && rep[0] == c
    requires m <= |ReplaceAll(t, pat, rep)| && c !in ReplaceAll(t, pat, rep)[..m]
    ensures m <= |t| && t[..m] == ReplaceAll(t, pat, rep)[..m]
    decreases |t|
  {
    var r := ReplaceAll(t, pat, rep);
    if m > 0 {
      if StartsWith(t, pat) {
        ReplacedStart(t, pat, rep);
        assert false;
      } else {
        var r' := ReplaceAll(t[1..], pat, rep);
        assert r == [t[0]] + r';
        assert r[..m][1..] == r'[..m - 1];
        assert forall x :: x in r'[..m - 1] ==> x in r[..m];
        PrefixWithoutMarker(t[1..], pat, rep, m - 1, c);
        assert t[..m] == [t[0]] + t[1..][..m - 1];
      }
    }
  }

  /** Text that starts with `pat` is rewritten to text that starts with `rep`. */
  lemma ReplacedStart(t: string, pat: string, rep: string)
    requires |pat| > 0 && |rep| > 0 && StartsWith(t, pat)
    ensures |ReplaceAll(t, pat, rep)| > 0 && ReplaceAll(t, pat, rep)[0] == rep[0]
  {
  }

  /**
   * `p` starts only at a `c` of its own: a kept character followed by rewritten text
   * starts with `p` only when the unrewritten text did.
   */
  lemma KeptNoStart(s: string, pat: string, rep: string, p: string)
    requires |pat| > 0 && |rep| > 0 && |p| > 0 && rep[0] == p[0] && p[0] !in p[1..]
    requires |s| > 0 && !StartsWith(s, p)
    ensures !StartsWith([s[0]] + ReplaceAll(s[1..], pat, rep), p)
  {
    var r := ReplaceAll(s[1..], pat, rep);
    if StartsWith([s[0]] + r, p) {
      assert ([s[0]] + r)[..|p|][1..] == r[..|p| - 1];
      assert r[..|p| - 1] == p[1..];
      PrefixWithoutMarker(s[1..], pat, rep, |p| - 1, p[0]);
      assert false;
    }
  }

  /** `x` ahead of `y` adds no occurrence of `p` starting inside `x`. */
  lemma {:induction false} InertPrefix(x: string, y: string, p: string)
    requires |p| > 0 && |x| > 0 && x[0] == p[0] && p[0] !in x[1..] && Diverges(x, p)
    requires !Contains(y, p)
    ensures !Contains(x + y, p)
  {
    var j := |x|;
    assert (x + y)[j..] == y;
    while j > 0
      invariant 0 <= j <= |x|
      invariant !Contains((x + y)[j..], p)
    {
      j := j - 1;
      assert (x + y)[j..][1..] == (x + y)[j + 1..];
      if j > 0 {
        assert (x + y)[j..][0] == x[j] && x[j] in x[1..];
      } else {
        var d :| 0 <= d < |x| && d < |p| && x[d] != p[d];
        assert (x + y)[d] == x[d];
      }
    }
  }

  /**
   * After ReplaceAll no occurrence of `p` is left, when `p` is the replaced text or was
   * absent to begin with, given that the replacement text cannot start one.
   */
  lemma {:induction false} ReplaceLeavesNone(s: string, pat: string, rep: string, p: string)
    requires |pat| > 0 && |p| > 0 && p[0] !in p[1..]
    requires |rep| > 0 && rep[0] == p[0] && p[0] !in rep[1..] && Diverges(rep, p)
    requires p == pat || !Contains(s, p)
    ensures !Contains(ReplaceAll(s, pat, rep), p)
    decreases |s|
  {
    if |s| == 0 {
      assert !StartsWith("", p);
    } else if StartsWith(s, pat) {
      if p != pat {
        ContainsSuffix(s, |pat|, p);
      }
      ReplaceLeavesNone(s[|pat|..], pat, rep, p);
      InertPrefix(rep, ReplaceAll(s[|pat|..], pat, rep), p);
    } else {
      ReplaceLeavesNone(s[1..], pat, rep, p);
      KeptNoStart(s, pat, rep, p);
      assert ([s[0]] + ReplaceAll(s[1..], pat, rep))[1..] == ReplaceAll(s[1..], pat, rep);
    }
  }

  lemma {:induction false} ContainsSuffix(s: string, k: nat, p: string)
    requires k <= |s| && !Contains(s, p)
    ensures !Contains(s[k..], p)
    decreases k
  {
    if k > 0 {
      ContainsSuffix(s[1..], k - 1, p);
      assert s[1..][k - 1..] == s[k..];
    }
  }

  /** A prefix that cannot start an occurrence of `pat` is copied ahead of the rewritten rest. */
  lemma {:induction false} ReplaceSkips(x: string, y: string, pat: string, rep: string)
    requires |pat| > 0
    requires forall j :: 0 <= j < |x| ==> !StartsWith((x + y)[j..], pat)
    ensures ReplaceAll(x + y, pat, rep) == x + ReplaceAll(y, pat, rep)
    decreases |x|
  {
    if |x| > 0 {
      assert !StartsWith((x + y)[0..], pat);
      assert (x + y)[1..] == x[1..] + y;
      forall j | 0 <= j < |x[1..]|
        ensures !StartsWith((x[1..] + y)[j..], pat)
      {
        assert (x[1..] + y)[j..] == (x + y)[j + 1..];
      }
      ReplaceSkips(x[1..], y, pat, rep);
    } else {
      assert x + y == y;
    }
  }

  /** No suffix of `x` ahead of `y` starts an occurrence of `pat`. */
  lemma SkipsAfterMarker(x: string, y: string, pat: string)
    requires |x| > 0 && |pat| > 0 && x[0] == pat[0] && pat[0] !in x[1..] && Diverges(x, pat)
    ensures forall j :: 0 <= j < |x| ==> !StartsWith((x + y)[j..], pat)
  {
    forall j | 0 <= j < |x|
      ensures !StartsWith((x + y)[j..], pat)
    {
      if j == 0 {
        var d :| 0 <= d < |x| && d < |pat| && x[d] != pat[d];
        assert (x + y)[d] == x[d];
      } else {
        assert (x + y)[j..][0] == x[j] && x[j] in x[1..];
      }
    }
  }

  // ---------------------------------------------------------------------------
  // Properties of the rewriting
  // ---------------------------------------------------------------------------

  /** `s` holds `$` at its start and nowhere else. */
  predicate MarkedOnce(s: string) {
    |s| > 0 && s[0] == '$' && forall i :: 1 <= i < |s| ==> s[i] != '$'
  }

  /**
   * The two placeholders and their replacements hold `$` only at their start, and
   * any two of them part before either ends.
   */
  lemma TableShape()
    ensures MarkedOnce(ImagePlaceholder) && MarkedOnce(ContextDirPlaceholder)
    ensures MarkedOnce(ImageReplacement) && MarkedOnce(ContextDirReplacement)
    ensures Diverges(ImageReplacement, ImagePlaceholder) && Diverges(ImageReplacement, ContextDirPlaceholder)
    ensures Diverges(ContextDirReplacement, ImagePlaceholder) && Diverges(ContextDirReplacement, ContextDirPlaceholder)
    ensures Diverges(ImagePlaceholder, ContextDirPlaceholder) && Diverges(ContextDirPlaceholder, ImagePlaceholder)
  {
    assert ImageReplacement[2] != ImagePlaceholder[2];
    assert ImageReplacement[2] != ContextDirPlaceholder[2];
    assert ContextDirReplacement[2] != ImagePlaceholder[2];
    assert ContextDirReplacement[2] != ContextDirPlaceholder[2];
    assert ImagePlaceholder[8] != ContextDirPlaceholder[8];
  }

  lemma MarkedOnceTail(s: string)
    requires MarkedOnce(s)
    ensures s[0] == '$' && '$' !in s[1..]
  {
  }

  /** The rewriting leaves neither placeholder in the text. */
  lemma TransformRemovesPlaceholders(s: string)
    ensures !Contains(Transform(s), ImagePlaceholder)
    ensures !Contains(Transform(s), ContextDirPlaceholder)
  {
    TableShape();
    var once := ReplaceAll(s, ImagePlaceholder, ImageReplacement);
    ReplaceLeavesNone(s, ImagePlaceholder, ImageReplacement, ImagePlaceholder);
    ReplaceLeavesNone(once, ContextDirPlaceholder, ContextDirReplacement, ImagePlaceholder);
    ReplaceLeavesNone(once, ContextDirPlaceholder, ContextDirReplacement, ContextDirPlaceholder);
  }

  /** A text without either placeholder is left as it is. */
  lemma TransformUnchanged(s: string)
    requires !Contains(s, ImagePlaceholder) && !Contains(s, ContextDirPlaceholder)
    ensures Transform(s) == s
  {
    ReplaceAbsent(s, ImagePlaceholder, ImageReplacement);
    ReplaceAbsent(s, ContextDirPlaceholder, ContextDirReplacement);
  }

  /** Rewriting twice is rewriting once. */
  lemma TransformIdempotent(s: string)
    ensures Transform(Transform(s)) == Transform(s)
  {
    TransformRemovesPlaceholders(s);
    TransformUnchanged(Transform(s));
  }

  /** Applying the table's entries in the other order gives the same text. */
  lemma {:induction false} TransformOrderIrrelevant(s: string)
    ensures ReplaceAll(ReplaceAll(s, ContextDirPlaceholder, ContextDirReplacement), ImagePlaceholder, ImageReplacement)
      == Transform(s)
    decreases |s|
  {
    TableShape();
    var o1, n1, o2, n2 := ImagePlaceholder, ImageReplacement, ContextDirPlaceholder, ContextDirReplacement;
    if |s| == 0 {
    } else if StartsWith(s, o1) {
      TransformOrderIrrelevant(s[|o1|..]);
      SwapAtMarker(s, o1, n1, o2, n2);
    } else if StartsWith(s, o2) {
      TransformOrderIrrelevant(s[|o2|..]);
      SwapAtMarker(s, o2, n2, o1, n1);
    } else {
      var t := s[1..];
      TransformOrderIrrelevant(t);
      KeptNoStart(s, o1, n1, o2);
      KeptNoStart(s, o2, n2, o1);
      var a := [s[0]] + ReplaceAll(t, o1, n1);
      var b := [s[0]] + ReplaceAll(t, o2, n2);
      assert a[1..] == ReplaceAll(t, o1, n1);
      assert b[1..] == ReplaceAll(t, o2, n2);
    }
  }

  /**
   * The two passes commute on a text that starts with the placeholder `oA`, once they
   * commute on the rest: the `oB` pass skips both `oA` and its replacement.
   */
  lemma SwapAtMarker(s: string, oA: string, nA: string, oB: string, nB: string)
    requires MarkedOnce(oA) && MarkedOnce(nA) && MarkedOnce(oB)
    requires Diverges(oA, oB) && Diverges(nA, oB)
    requires StartsWith(s, oA)
    requires ReplaceAll(ReplaceAll(s[|oA|..], oB, nB), oA, nA) == ReplaceAll(ReplaceAll(s[|oA|..], oA, nA), oB, nB)
    ensures ReplaceAll(ReplaceAll(s, oB, nB), oA, nA) == ReplaceAll(ReplaceAll(s, oA, nA), oB, nB)
  {
    var t := s[|oA|..];
    MarkedOnceTail(oA);
    MarkedOnceTail(nA);
    MarkedOnceTail(oB);
    // oA first: it becomes nA, which the oB pass skips
    assert ReplaceAll(s, oA, nA) == nA + ReplaceAll(t, oA, nA);
    SkipsAfterMarker(nA, ReplaceAll(t, oA, nA), oB);
    ReplaceSkips(nA, ReplaceAll(t, oA, nA), oB, nB);
    // oB first: it skips oA, which is then rewritten
    assert s == oA + t;
    SkipsAfterMarker(oA, t, oB);
    ReplaceSkips(oA, t, oB, nB);
    assert StartsWith(oA + ReplaceAll(t, oB, nB), oA);
    assert (oA + ReplaceAll(t, oB, nB))[|oA|..] == ReplaceAll(t, oB, nB);
  }
}
