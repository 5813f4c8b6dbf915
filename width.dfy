/** Width measurement (get_string_width) and its memo table. The font engine is
    a parameter: `metric(font, text, size)` is the canvas's stringWidth for a
    registered font, and `registered(font)` says whether setting that font
    succeeds; otherwise the source's try/except falls back to the next font. */
module Width {
  import opened Emoji

  datatype FontEnv = FontEnv(metric: (string, string, real) -> real, registered: string -> bool)

  const EmojiFont: string := "EmojiFont"
  /** reportlab's built-in fallback; a standard font, always available. */
  const Helvetica: string := "Helvetica"

  /** Font a non-modifier code point is measured in on the per-character path. */
  function CharFont(env: FontEnv, c: char, font: string): string {
    if IsEmoji(c) && env.registered(EmojiFont) then EmojiFont
    else if env.registered(font) then font
    else Helvetica
  }

  /** Contribution of one code point on the per-character path; modifiers add nothing. */
  function CharWidth(env: FontEnv, c: char, font: string, size: real): real {
    if IsModifier(c) then 0.0 else env.metric(CharFont(env, c, font), [c], size)
  }

  /** Per-character sum, accumulated left to right as the source's loop does. */
  function SumWidth(env: FontEnv, s: string, font: string, size: real): real {
    if s == [] then 0.0
    else SumWidth(env, s[..|s| - 1], font, size) + CharWidth(env, s[|s| - 1], font, size)
  }

  /** Width of `text`: one whole-string measurement when it holds no emoji-range
      code point (fast path), otherwise the per-character sum. */
  function StringWidth(env: FontEnv, text: string, font: string, size: real): real {
    if ContainsEmoji(text) then SumWidth(env, text, font, size)
    else env.metric(if env.registered(font) then font else Helvetica, text, size)
  }

  /** The measurement in one font and size, as a function of the text alone. */
  function WidthIn(env: FontEnv, font: string, size: real): (string -> real) {
    s => StringWidth(env, s, font, size)
  }

  // ---------------------------------------------------------------------------
  // Properties of the measurement
  // ---------------------------------------------------------------------------

  /** The per-character sum is additive over concatenation. */
  lemma {:induction false} SumWidthAppend(env: FontEnv, a: string, b: string, font: string, size: real)
    ensures SumWidth(env, a + b, font, size) == SumWidth(env, a, font, size) + SumWidth(env, b, font, size)
    decreases |b|
  {
    if b == [] {
      assert a + b == a;
    } else {
      var b' := b[..|b| - 1];
      assert (a + b)[..|a + b| - 1] == a + b';
      assert (a + b)[|a + b| - 1] == b[|b| - 1];
      SumWidthAppend(env, a, b', font, size);
    }
  }

  /** The text with every selector, skin tone and joiner removed. */
  function WithoutModifiers(s: string): (r: string)
    ensures |r| <= |s|
  {
    if s == [] then []
    else WithoutModifiers(s[..|s| - 1]) + (if IsModifier(s[|s| - 1]) then [] else [s[|s| - 1]])
  }

  /** Modifiers count zero: dropping them leaves the per-character sum unchanged. */
  lemma {:induction false} SumWidthIgnoresModifiers(env: FontEnv, s: string, font: string, size: real)
    ensures SumWidth(env, WithoutModifiers(s), font, size) == SumWidth(env, s, font, size)
    decreases |s|
  {
    if s != [] {
      var s' := s[..|s| - 1];
      var c := s[|s| - 1];
      var tail := if IsModifier(c) then [] else [c];
      SumWidthIgnoresModifiers(env, s', font, size);
      SumWidthAppend(env, WithoutModifiers(s'), tail, font, size);
      assert WithoutModifiers(s) == WithoutModifiers(s') + tail;
      if IsModifier(c) {
        assert SumWidth(env, tail, font, size) == 0.0;
        assert CharWidth(env, c, font, size) == 0.0;
      } else {
        assert [c][..0] == [];
        assert SumWidth(env, tail, font, size) == CharWidth(env, c, font, size);
      }
      assert SumWidth(env, s, font, size) == SumWidth(env, s', font, size) + CharWidth(env, c, font, size);
    }
  }

  /** The per-character sum over code points that are all modifiers is zero. */
  lemma {:induction false} SumWidthOfModifiers(env: FontEnv, mods: string, font: string, size: real)
    requires forall k :: 0 <= k < |mods| ==> IsModifier(mods[k])
    ensures SumWidth(env, mods, font, size) == 0.0
    decreases |mods|
  {
    if mods != [] {
      SumWidthOfModifiers(env, mods[..|mods| - 1], font, size);
    }
  }

  /** An emoji followed only by modifiers (e.g. base + skin tone + selector) is
      as wide as its base alone in the emoji font chain. */
  lemma ModifiedEmojiWidth(env: FontEnv, base: char, mods: string, font: string, size: real)
    requires IsEmoji(base) && !IsModifier(base)
    requires forall k :: 0 <= k < |mods| ==> IsModifier(mods[k])
    ensures StringWidth(env, [base] + mods, font, size) == env.metric(CharFont(env, base, font), [base], size)
  {
    var s := [base] + mods;
    assert IsEmoji(s[0]);
    assert ContainsEmoji(s);
    SumWidthAppend(env, [base], mods, font, size);
    SumWidthOfModifiers(env, mods, font, size);
    assert [base][..0] == [];
  }

  /** Fast-path equivalence: without emoji-range code points the width is the
      engine's own whole-string width (in the fallback font when the requested
      one is not registered), not a per-character sum. */
  lemma FastPath(env: FontEnv, text: string, font: string, size: real)
    requires forall k :: 0 <= k < |text| ==> !IsEmoji(text[k])
    ensures env.registered(font) ==> StringWidth(env, text, font, size) == env.metric(font, text, size)
    ensures !env.registered(font) ==> StringWidth(env, text, font, size) == env.metric(Helvetica, text, size)
  {
  }

  // ---------------------------------------------------------------------------
  // The memo table (string_width_cache)
  // ---------------------------------------------------------------------------

  datatype WidthKey = WidthKey(text: string, font: string, size: real)

  class WidthCache {
    const env: FontEnv
    var table: map<WidthKey, real>

    /** Every memoised width is the width the measurement would compute. */
    ghost predicate Valid()
      reads this
    {
      forall k :: k in table ==> table[k] == StringWidth(env, k.text, k.font, k.size)
    }

    constructor (env: FontEnv)
      ensures this.env == env && table == map[] && Valid()
    {
      this.env := env;
      table := map[];
    }

    /** get_string_width: answers from the table when the key is there, otherwise
        measures (fast path or per-character loop) and records the result. */
    method Measure(text: string, font: string, size: real) returns (w: real)
      requires Valid()
      modifies this
      ensures Valid()
      ensures w == StringWidth(env, text, font, size)
      ensures WidthKey(text, font, size) in old(table) ==> w == old(table)[WidthKey(text, font, size)]
      ensures table == old(table)[WidthKey(text, font, size) := w]
    {
      var key := WidthKey(text, font, size);
      if key in table {
        w := table[key];
        return;
      }
      var containsEmoji := false;
      var k := 0;
      while k < |text| && !containsEmoji
        invariant 0 <= k <= |text|
        invariant containsEmoji <==> (k > 0 && IsEmoji(text[k - 1]))
        invariant forall q :: 0 <= q < k - 1 ==> !IsEmoji(text[q])
        invariant !containsEmoji ==> forall q :: 0 <= q < k ==> !IsEmoji(text[q])
      {
        if IsEmoji(text[k]) {
          containsEmoji := true;
        }
        k := k + 1;
      }
      assert containsEmoji <==> ContainsEmoji(text);
      if containsEmoji {
        w := 0.0;
        var i := 0;
        while i < |text|
          invariant 0 <= i <= |text|
          invariant w == SumWidth(env, text[..i], font, size)
        {
          assert text[..i + 1][..i] == text[..i];
          w := w + CharWidth(env, text[i], font, size);
          i := i + 1;
        }
        assert text[..|text|] == text;
      } else {
        w := env.metric(if env.registered(font) then font else Helvetica, text, size);
      }
      table := table[key := w];
    }
  }
}
