/** Code-point classification and the emoji cluster scanner of the layout engine
    (the range tests repeated in get_string_width, wrap_text and draw_message).
    Text is a Dafny `string`: with Unicode characters every `char` is one code
    point, exactly as a Python `str` is indexed. */
module Emoji {

  /** The six emoji blocks that start a cluster. */
  predicate IsEmoji(c: char) {
    var n := c as int;
    (0x1F600 <= n <= 0x1F64F) || (0x1F300 <= n <= 0x1F5FF) || (0x1F680 <= n <= 0x1F6FF) ||
    (0x2600 <= n <= 0x26FF) || (0x2700 <= n <= 0x27BF) || (0x1F900 <= n <= 0x1F9FF)
  }

  predicate IsVariationSelector(c: char) {
    0xFE00 <= c as int <= 0xFE0F
  }

  /** Skin-tone modifiers; this range lies inside U+1F300-1F5FF, so these are emoji too. */
  predicate IsSkinTone(c: char) {
    0x1F3FB <= c as int <= 0x1F3FF
  }

  /** The zero-width joiner U+200D. */
  predicate IsJoiner(c: char) {
    c as int == 0x200D
  }

  /** What the scanner absorbs after a cluster's base, and what measuring counts as zero width. */
  predicate IsModifier(c: char) {
    IsVariationSelector(c) || IsSkinTone(c) || IsJoiner(c)
  }

  /** What the scanner absorbs in a run right after a joiner. */
  predicate IsChainable(c: char) {
    IsEmoji(c) || IsVariationSelector(c) || IsSkinTone(c)
  }

  predicate ContainsEmoji(s: string) {
    exists k :: 0 <= k < |s| && IsEmoji(s[k])
  }

  // ---------------------------------------------------------------------------
  // Reference definition of a cluster
  // ---------------------------------------------------------------------------

  /** Position k (past the base at i) is reached from a joiner inside the cluster
      through chainable code points only. */
  predicate JoinerChained(t: string, i: nat, k: nat)
    requires i < k <= |t|
    decreases k
  {
    k - 1 > i && (IsJoiner(t[k - 1]) || (IsChainable(t[k - 1]) && JoinerChained(t, i, k - 1)))
  }

  /** The code point at k may belong to the cluster whose base is at i. */
  predicate Absorbable(t: string, i: nat, k: nat)
    requires i < k < |t|
  {
    IsModifier(t[k]) || (IsChainable(t[k]) && JoinerChained(t, i, k))
  }

  /** The end of the run of absorbable code points that starts at k. */
  function RunEnd(t: string, i: nat, k: nat): (e: nat)
    requires i < k <= |t|
    decreases |t| - k
    ensures k <= e <= |t|
    ensures forall q :: k <= q < e ==> Absorbable(t, i, q)
    ensures e < |t| ==> !Absorbable(t, i, e)
  {
    if k < |t| && Absorbable(t, i, k) then RunEnd(t, i, k + 1) else k
  }

  /** End (exclusive) of the unit that starts at i: an emoji base and the longest
      run of absorbable code points after it, or a single code point. */
  function ClusterEnd(t: string, i: nat): (e: nat)
    requires i < |t|
    ensures i < e <= |t|
    ensures e > i + 1 ==> IsEmoji(t[i])
    ensures IsEmoji(t[i]) ==> forall q :: i < q < e ==> Absorbable(t, i, q)
    ensures IsEmoji(t[i]) && e < |t| ==> !Absorbable(t, i, e)
  {
    if IsEmoji(t[i]) then RunEnd(t, i, i + 1) else i + 1
  }

  /** A run end is determined by the absorbable positions: the first position
      from k on that cannot be absorbed. */
  lemma {:induction false} RunEndUnique(t: string, i: nat, k: nat, e: nat)
    requires i < k <= e <= |t|
    requires forall q :: k <= q < e ==> Absorbable(t, i, q)
    requires e < |t| ==> !Absorbable(t, i, e)
    ensures RunEnd(t, i, k) == e
    decreases e - k
  {
    if k < e {
      RunEndUnique(t, i, k + 1, e);
    }
  }

  /** The scan of wrap_text: an emoji base, then modifiers; after each joiner a
      run of emoji, selectors and skin tones. Returns the unit's length. */
  method ClusterLength(t: string, i: nat) returns (n: nat)
    requires i < |t|
    ensures n == ClusterEnd(t, i) - i
    ensures n >= 1 && i + n <= |t|
  {
    n := 1;
    if IsEmoji(t[i]) {
      var j := i + 1;
      while j < |t| && IsModifier(t[j])
        invariant i < j <= |t| && n == j - i
        invariant forall q :: i < q < j ==> Absorbable(t, i, q)
        invariant j == |t| || !JoinerChained(t, i, j) || !IsChainable(t[j])
        decreases |t| - j
      {
        n := n + 1;
        j := j + 1;
        if j < |t| && IsJoiner(t[j - 1]) {
          while j < |t| && IsChainable(t[j])
            invariant i + 1 < j <= |t| && n == j - i
            invariant forall q :: i < q < j ==> Absorbable(t, i, q)
            invariant JoinerChained(t, i, j)
            decreases |t| - j
          {
            n := n + 1;
            j := j + 1;
          }
        }
      }
      RunEndUnique(t, i, i + 1, j);
    }
  }

  // ---------------------------------------------------------------------------
  // Decomposition of a text into units
  // ---------------------------------------------------------------------------

  /** The units the wrapper visits, left to right, starting at i. */
  function ClustersFrom(t: string, i: nat): (cs: seq<string>)
    requires i <= |t|
    decreases |t| - i
  {
    if i == |t| then [] else [t[i..ClusterEnd(t, i)]] + ClustersFrom(t, ClusterEnd(t, i))
  }

  function Clusters(t: string): seq<string> {
    ClustersFrom(t, 0)
  }

  /** Concatenation of a sequence of strings. */
  function Concat(ss: seq<string>): string {
    if ss == [] then "" else Concat(ss[..|ss| - 1]) + ss[|ss| - 1]
  }

  lemma {:induction false} ConcatAppend(a: seq<string>, b: seq<string>)
    ensures Concat(a + b) == Concat(a) + Concat(b)
    decreases |b|
  {
    if b == [] {
      assert a + b == a;
    } else {
      var b' := b[..|b| - 1];
      assert (a + b)[..|a + b| - 1] == a + b';
      ConcatAppend(a, b');
    }
  }

  lemma ConcatSingle(s: string)
    ensures Concat([s]) == s
  {
    assert [s][..0] == [];
  }

  /** Concatenating non-empty strings gives the empty string only for no strings. */
  lemma {:induction false} ConcatNonEmpty(ss: seq<string>)
    requires forall k :: 0 <= k < |ss| ==> ss[k] != ""
    ensures |Concat(ss)| >= |ss|
    ensures Concat(ss) == "" <==> ss == []
    decreases |ss|
  {
    if ss != [] {
      ConcatNonEmpty(ss[..|ss| - 1]);
    }
  }

  /** The units partition the text: concatenated they give back t[i..]. */
  lemma {:induction false} ClustersConcat(t: string, i: nat)
    requires i <= |t|
    ensures Concat(ClustersFrom(t, i)) == t[i..]
    decreases |t| - i
  {
    if i < |t| {
      var e := ClusterEnd(t, i);
      ClustersConcat(t, e);
      ConcatAppend([t[i..e]], ClustersFrom(t, e));
      ConcatSingle(t[i..e]);
      assert t[i..e] + t[e..] == t[i..];
    }
  }

  /** Every unit is non-empty, and a unit longer than one code point starts with an emoji. */
  lemma {:induction false} ClustersShape(t: string, i: nat)
    requires i <= |t|
    ensures forall k :: 0 <= k < |ClustersFrom(t, i)| ==>
      ClustersFrom(t, i)[k] != "" &&
      (|ClustersFrom(t, i)[k]| > 1 ==> IsEmoji(ClustersFrom(t, i)[k][0]))
    decreases |t| - i
  {
    if i < |t| {
      ClustersShape(t, ClusterEnd(t, i));
    }
  }
}
