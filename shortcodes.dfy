/** The shortcode table of the text branch (EMOJI_MAP) and Python's substring
    test and str.replace, which the branch applies entry by entry. */
module Shortcodes {

  /** `s` begins with `p`. */
  predicate StartsWith(s: string, p: string) {
    |p| <= |s| && s[..|p|] == p
  }

  /** `p in s`: p is a contiguous part of s. */
  predicate Occurs(p: string, s: string)
    decreases |s|
  {
    StartsWith(s, p) || (s != [] && Occurs(p, s[1..]))
  }

  /** `s.replace(p, r)`: occurrences found left to right, never overlapping. */
  function ReplaceAll(s: string, p: string, r: string): string
    requires p != ""
    decreases |s|
  {
    if |s| < |p| then s
    else if s[..|p|] == p then r + ReplaceAll(s[|p|..], p, r)
    else [s[0]] + ReplaceAll(s[1..], p, r)
  }

  /** `s.count(p)`: the number of occurrences that ReplaceAll rewrites. */
  function CountOf(s: string, p: string): nat
    requires p != ""
    decreases |s|
  {
    if |s| < |p| then 0
    else if s[..|p|] == p then 1 + CountOf(s[|p|..], p)
    else CountOf(s[1..], p)
  }

  /** No code point of `a` appears in `b`. */
  predicate Disjoint(a: string, b: string) {
    forall i, j :: 0 <= i < |a| && 0 <= j < |b| ==> a[i] != b[j]
  }

  // ---------------------------------------------------------------------------
  // Properties of one replacement
  // ---------------------------------------------------------------------------

  /** Text without the pattern comes back unchanged. */
  lemma {:induction false} ReplaceAbsent(s: string, p: string, r: string)
    requires p != "" && !Occurs(p, s)
    ensures ReplaceAll(s, p, r) == s
    decreases |s|
  {
    if |s| >= |p| {
      ReplaceAbsent(s[1..], p, r);
      assert [s[0]] + s[1..] == s;
    }
  }

  /** Replacing a pattern by itself changes nothing. */
  lemma {:induction false} ReplaceSame(s: string, p: string)
    requires p != ""
    ensures ReplaceAll(s, p, p) == s
    decreases |s|
  {
    if |s| >= |p| {
      if s[..|p|] == p {
        ReplaceSame(s[|p|..], p);
        assert s[..|p|] + s[|p|..] == s;
      } else {
        ReplaceSame(s[1..], p);
        assert [s[0]] + s[1..] == s;
      }
    }
  }

  lemma Distribute(c: int, d: int)
    ensures (1 + c) * d == c * d + d
  {
  }

  /** Each rewritten occurrence changes the length by |r| - |p|. */
  lemma {:induction false} ReplaceLength(s: string, p: string, r: string)
    requires p != ""
    ensures |ReplaceAll(s, p, r)| == |s| + CountOf(s, p) * (|r| - |p|)
    decreases |s|
  {
    var d := |r| - |p|;
    if |s| >= |p| {
      if s[..|p|] == p {
        var s' := s[|p|..];
        var c := CountOf(s', p);
        ReplaceLength(s', p, r);
        assert |ReplaceAll(s, p, r)| == |r| + |ReplaceAll(s', p, r)|;
        assert CountOf(s, p) == 1 + c && |s| == |p| + |s'|;
        Distribute(c, d);
      } else {
        ReplaceLength(s[1..], p, r);
        assert |ReplaceAll(s, p, r)| == 1 + |ReplaceAll(s[1..], p, r)|;
        assert CountOf(s, p) == CountOf(s[1..], p);
      }
    }
  }

  /** A prefix made only of code points that `r` lacks survives the rewrite
      only where it was already there. */
  lemma {:induction false} PrefixKept(t: string, p: string, r: string, q: string)
    requires p != "" && r != "" && Disjoint(r, q)
    requires StartsWith(ReplaceAll(t, p, r), q)
    ensures StartsWith(t, q)
    decreases |t|
  {
    if q != [] && |t| >= |p| {
      if t[..|p|] == p {
        assert false;
      } else {
        var rest := ReplaceAll(t[1..], p, r);
        assert ReplaceAll(t, p, r) == [t[0]] + rest;
        assert q[0] == t[0];
        assert StartsWith(rest, q[1..]) by {
          assert rest[..|q| - 1] == ReplaceAll(t, p, r)[1..|q|];
          assert q[1..] == q[..|q|][1..];
        }
        PrefixKept(t[1..], p, r, q[1..]);
        assert t[1..][..|q| - 1] == t[1..|q|] == q[1..];
        assert t[..|q|] == [t[0]] + t[1..|q|];
        assert q == [q[0]] + q[1..];
      }
    }
  }

  /** When `r` is non-empty and shares no code point with `p`, no occurrence of
      `p` is left after the rewrite. */
  lemma {:induction false} ReplaceRemoves(s: string, p: string, r: string)
    requires p != "" && r != "" && Disjoint(r, p)
    ensures !Occurs(p, ReplaceAll(s, p, r))
    decreases |s|
  {
    var out := ReplaceAll(s, p, r);
    if |s| < |p| {
      ShortHasNone(p, s);
    } else if s[..|p|] == p {
      var rest := ReplaceAll(s[|p|..], p, r);
      ReplaceRemoves(s[|p|..], p, r);
      NoneAcross(p, r, rest);
    } else {
      var rest := ReplaceAll(s[1..], p, r);
      ReplaceRemoves(s[1..], p, r);
      assert out == [s[0]] + rest;
      if StartsWith(out, p) {
        assert StartsWith(rest, p[1..]) by {
          assert rest[..|p| - 1] == out[1..|p|];
        }
        assert Disjoint(r, p[1..]);
        PrefixKept(s[1..], p, r, p[1..]);
      }
      assert out[1..] == rest;
    }
  }

  /** Prefixing code points the pattern lacks creates no occurrence. */
  lemma {:induction false} NoneAcross(p: string, a: string, b: string)
    requires p != "" && Disjoint(a, p) && !Occurs(p, b)
    ensures !Occurs(p, a + b)
    decreases |a|
  {
    if a == [] {
      assert a + b == b;
    } else {
      assert (a + b)[0] == a[0] != p[0];
      assert (a + b)[1..] == a[1..] + b;
      NoneAcross(p, a[1..], b);
    }
  }

  /** A string shorter than the pattern cannot hold it. */
  lemma {:induction false} ShortHasNone(p: string, s: string)
    requires |s| < |p|
    ensures !Occurs(p, s)
    decreases |s|
  {
    if s != [] {
      ShortHasNone(p, s[1..]);
    }
  }

  /** An occurrence puts the pattern's first code point in the text. */
  lemma {:induction false} OccursHead(p: string, s: string)
    requires p != "" && Occurs(p, s)
    ensures exists k :: 0 <= k < |s| && s[k] == p[0]
    decreases |s|
  {
    if !StartsWith(s, p) {
      OccursHead(p, s[1..]);
      var k :| 0 <= k < |s[1..]| && s[1..][k] == p[0];
      assert s[k + 1] == p[0];
    } else {
      assert s[0] == p[0];
    }
  }

  // ---------------------------------------------------------------------------
  // The table pass
  // ---------------------------------------------------------------------------

  type Table = seq<(string, string)>

  predicate NonEmptyKeys(table: Table) {
    forall i :: 0 <= i < |table| ==> table[i].0 != ""
  }

  /** A table the text branch can apply: no entry has an empty key. */
  type ShortcodeTable = t: Table | NonEmptyKeys(t) witness []

  /** The text after the first |table| entries and how many of them were found:
      an entry rewrites every occurrence and counts once, only if its key
      appears in the text as the earlier entries left it. */
  function Expand(table: Table, text: string): (r: (string, nat))
    requires NonEmptyKeys(table)
    ensures r.1 <= |table|
  {
    if table == [] then (text, 0)
    else
      var prev := Expand(table[..|table| - 1], text);
      var (key, value) := table[|table| - 1];
      if Occurs(key, prev.0) then (ReplaceAll(prev.0, key, value), prev.1 + 1) else prev
  }

  /** Keys that all start with `[` leave text without `[` alone, and none is counted. */
  lemma {:induction false} ExpandPlain(table: Table, text: string)
    requires NonEmptyKeys(table)
    requires forall i :: 0 <= i < |table| ==> table[i].0[0] == '['
    requires forall k :: 0 <= k < |text| ==> text[k] != '['
    ensures Expand(table, text) == (text, 0)
    decreases |table|
  {
    if table != [] {
      ExpandPlain(table[..|table| - 1], text);
      var key := table[|table| - 1].0;
      if Occurs(key, text) {
        OccursHead(key, text);
      }
    }
  }

  /** The last entry applied leaves no occurrence of its key when its value is
      non-empty and shares no code point with the key. */
  lemma ExpandRemovesLast(table: Table, text: string)
    requires NonEmptyKeys(table) && table != []
    requires table[|table| - 1].1 != "" && Disjoint(table[|table| - 1].1, table[|table| - 1].0)
    ensures !Occurs(table[|table| - 1].0, Expand(table, text).0)
  {
    var prev := Expand(table[..|table| - 1], text);
    var (key, value) := table[|table| - 1];
    if Occurs(key, prev.0) {
      ReplaceRemoves(prev.0, key, value);
    }
  }

  /** The shortcode pass of the text branch: for each entry in order, when its
      key occurs, replace every occurrence and count the entry. */
  method ExpandShortcodes(table: Table, text: string) returns (processed: string, count: nat)
    requires NonEmptyKeys(table)
    ensures (processed, count) == Expand(table, text)
  {
    processed := text;
    count := 0;
    var i := 0;
    while i < |table|
      invariant 0 <= i <= |table|
      invariant (processed, count) == Expand(table[..i], text)
    {
      var (key, value) := table[i];
      assert table[..i + 1][..i] == table[..i];
      if Occurs(key, processed) {
        processed := ReplaceAll(processed, key, value);
        count := count + 1;
      }
      i := i + 1;
    }
    assert table[..|table|] == table;
  }

  /** A shortcode: a bracketed name such as `[微笑]`. */
  type Shortcode = s: string | |s| >= 2 && s[0] == '[' && s[|s| - 1] == ']' witness "[]"

  /** Every shortcode is a non-empty bracketed name, so text without `[` passes
      through the table unchanged. */
  lemma EmojiMapPlain(text: string)
    requires forall k :: 0 <= k < |text| ==> text[k] != '['
    ensures NonEmptyKeys(EmojiMap)
    ensures Expand(EmojiMap, text) == (text, 0)
  {
    ShortcodeTablePlain(EmojiMap, text);
  }

  lemma ShortcodeTablePlain(table: seq<(Shortcode, string)>, text: string)
    requires forall k :: 0 <= k < |text| ==> text[k] != '['
    ensures NonEmptyKeys(table)
    ensures Expand(table, text) == (text, 0)
  {
    ShortcodeKeys(table);
    ExpandPlain(table, text);
  }

  lemma ShortcodeKeys(table: seq<(Shortcode, string)>)
    ensures NonEmptyKeys(table)
    ensures forall i :: 0 <= i < |table| ==> table[i].0[0] == '['
  {
  }

  /** EMOJI_MAP as the table the text branch applies. */
  const EmojiTable: ShortcodeTable := (ShortcodeKeys(EmojiMap); EmojiMap)

  /** EMOJI_MAP, in the dictionary's insertion order (written in parts of 8). */
  const EmojiMap: seq<(Shortcode, string)> :=
    EmojiMap0 + EmojiMap1 + EmojiMap2 + EmojiMap3 + EmojiMap4 + EmojiMap5 + EmojiMap6 +
    EmojiMap7 + EmojiMap8 + EmojiMap9 + EmojiMap10 + EmojiMap11 + EmojiMap12 + EmojiMap13 +
    EmojiMap14 + EmojiMap15 + EmojiMap16 + EmojiMap17 + EmojiMap18 + EmojiMap19 + EmojiMap20 +
    EmojiMap21 + EmojiMap22 + EmojiMap23 + EmojiMap24 + EmojiMap25

  const EmojiMap0: seq<(Shortcode, string)> := [
    ("[微笑]", "\U{1F60A}"),
    ("[笑]", "\U{1F604}"),
    ("[大笑]", "\U{1F602}"),
    ("[呲牙]", "\U{1F601}"),
    ("[嘻嘻]", "\U{1F606}"),
    ("[偷笑]", "\U{1F60F}"),
    ("[害羞]", "\U{1F633}"),
    ("[可爱]", "\U{1F970}")
  ]

  const EmojiMap1: seq<(Shortcode, string)> := [
    ("[调皮]", "\U{1F61C}"),
    ("[得意]", "\U{1F60E}"),
    ("[龇牙]", "\U{1F62C}"),
    ("[鼓掌]", "\U{1F44F}"),
    ("[呲牙笑]", "\U{1F601}"),
    ("[憨笑]", "\U{1F92A}"),
    ("[难过]", "\U{1F614}"),
    ("[流泪]", "\U{1F622}")
  ]

  const EmojiMap2: seq<(Shortcode, string)> := [
    ("[大哭]", "\U{1F62D}"),
    ("[伤心]", "\U{1F494}"),
    ("[失望]", "\U{1F61E}"),
    ("[恐惧]", "\U{1F631}"),
    ("[尴尬]", "\U{1F613}"),
    ("[汗]", "\U{1F4A6}"),
    ("[抓狂]", "\U{1F62B}"),
    ("[怒]", "\U{1F621}")
  ]

  const EmojiMap3: seq<(Shortcode, string)> := [
    ("[发怒]", "\U{1F620}"),
    ("[生气]", "\U{1F92C}"),
    ("[委屈]", "\U{1F97A}"),
    ("[惊讶]", "\U{1F632}"),
    ("[惊恐]", "\U{1F628}"),
    ("[惊吓]", "\U{1F631}"),
    ("[惊喜]", "\U{1F929}"),
    ("[疑问]", "\U{2753}")
  ]

  const EmojiMap4: seq<(Shortcode, string)> := [
    ("[思考]", "\U{1F914}"),
    ("[紧张]", "\U{1F630}"),
    ("[捂脸]", "\U{1F926}"),
    ("[晕]", "\U{1F635}"),
    ("[衰]", "\U{1F623}"),
    ("[悠闲]", "\U{1F60C}"),
    ("[奋斗]", "\U{1F4AA}"),
    ("[发呆]", "\U{1F610}")
  ]

  const EmojiMap5: seq<(Shortcode, string)> := [
    ("[睡]", "\U{1F634}"),
    ("[睡觉]", "\U{1F634}"),
    ("[疲惫]", "\U{1F629}"),
    ("[困]", "\U{1F62B}"),
    ("[口罩]", "\U{1F637}"),
    ("[感冒]", "\U{1F912}"),
    ("[生病]", "\U{1F922}"),
    ("[吐]", "\U{1F92E}")
  ]

  const EmojiMap6: seq<(Shortcode, string)> := [
    ("[瞌睡]", "\U{1F62A}"),
    ("[闭嘴]", "\U{1F910}"),
    ("[傻眼]", "\U{1F633}"),
    ("[色]", "\U{1F60D}"),
    ("[嘴唇]", "\U{1F444}"),
    ("[亲亲]", "\U{1F618}"),
    ("[互相亲]", "\U{1F48F}"),
    ("[吓]", "\U{1F628}")
  ]

  const EmojiMap7: seq<(Shortcode, string)> := [
    ("[冷汗]", "\U{1F605}"),
    ("[阴险]", "\U{1F60F}"),
    ("[嘘]", "\U{1F92B}"),
    ("[右哼哼]", "\U{1F624}"),
    ("[左哼哼]", "\U{1F612}"),
    ("[给力]", "\U{1F44D}"),
    ("[差劲]", "\U{1F44E}"),
    ("[举手]", "\U{1F64B}")
  ]

  const EmojiMap8: seq<(Shortcode, string)> := [
    ("[拜拜]", "\U{1F44B}"),
    ("[加油]", "\U{1F4AA}"),
    ("[合十]", "\U{1F64F}"),
    ("[猪头]", "\U{1F437}"),
    ("[猪]", "\U{1F416}"),
    ("[熊猫]", "\U{1F43C}"),
    ("[兔子]", "\U{1F430}"),
    ("[小狗]", "\U{1F436}")
  ]

  const EmojiMap9: seq<(Shortcode, string)> := [
    ("[狗]", "\U{1F415}"),
    ("[猫咪]", "\U{1F431}"),
    ("[猫]", "\U{1F408}"),
    ("[猴子]", "\U{1F412}"),
    ("[羊]", "\U{1F411}"),
    ("[老虎]", "\U{1F42F}"),
    ("[蛇]", "\U{1F40D}"),
    ("[鸡]", "\U{1F414}")
  ]

  const EmojiMap10: seq<(Shortcode, string)> := [
    ("[公鸡]", "\U{1F413}"),
    ("[青蛙]", "\U{1F438}"),
    ("[西瓜]", "\U{1F349}"),
    ("[啤酒]", "\U{1F37A}"),
    ("[咖啡]", "\U{2615}"),
    ("[蛋糕]", "\U{1F370}"),
    ("[吃瓜]", "\U{1F349}"),
    ("[饭]", "\U{1F35A}")
  ]

  const EmojiMap11: seq<(Shortcode, string)> := [
    ("[苹果]", "\U{1F34E}"),
    ("[甜品]", "\U{1F9C1}"),
    ("[红酒]", "\U{1F377}"),
    ("[面条]", "\U{1F35C}"),
    ("[礼物]", "\U{1F381}"),
    ("[红包]", "\U{1F9E7}"),
    ("[花]", "\U{1F338}"),
    ("[玫瑰]", "\U{1F339}")
  ]

  const EmojiMap12: seq<(Shortcode, string)> := [
    ("[枯萎]", "\U{1F940}"),
    ("[爱心]", "\U{2764}\U{FE0F}"),
    ("[心碎]", "\U{1F494}"),
    ("[拥抱]", "\U{1F917}"),
    ("[强]", "\U{1F4AA}"),
    ("[弱]", "\U{1F44E}"),
    ("[拍照]", "\U{1F4F7}"),
    ("[火]", "\U{1F525}")
  ]

  const EmojiMap13: seq<(Shortcode, string)> := [
    ("[溜]", "\U{1F3C3}"),
    ("[炸弹]", "\U{1F4A3}"),
    ("[刀]", "\U{1F52A}"),
    ("[足球]", "\U{26BD}"),
    ("[篮球]", "\U{1F3C0}"),
    ("[毛线]", "\U{1F9F6}"),
    ("[太阳]", "\U{2600}\U{FE0F}"),
    ("[月亮]", "\U{1F319}")
  ]

  const EmojiMap14: seq<(Shortcode, string)> := [
    ("[雨]", "\U{1F327}\U{FE0F}"),
    ("[雪]", "\U{2744}\U{FE0F}"),
    ("[闪电]", "\U{26A1}"),
    ("[阴天]", "\U{2601}\U{FE0F}"),
    ("[赞]", "\U{1F44D}"),
    ("[嗯]", "\U{1F610}"),
    ("[抠鼻]", "\U{1F443}"),
    ("[吐舌]", "\U{1F61D}")
  ]

  const EmojiMap15: seq<(Shortcode, string)> := [
    ("[可怜]", "\U{1F97A}"),
    ("[白眼]", "\U{1F644}"),
    ("[右太极]", "\U{262F}\U{FE0F}"),
    ("[左太极]", "\U{262F}\U{FE0F}"),
    ("[骷髅]", "\U{1F480}"),
    ("[嘿哈]", "\U{270C}\U{FE0F}"),
    ("[奸笑]", "\U{1F60F}"),
    ("[机智]", "\U{1F60E}")
  ]

  const EmojiMap16: seq<(Shortcode, string)> := [
    ("[耶]", "\U{270C}\U{FE0F}"),
    ("[面对疗伤]", "\U{1F912}"),
    ("[摊手]", "\U{1F937}"),
    ("[车]", "\U{1F697}"),
    ("[车厢]", "\U{1F683}"),
    ("[飞机]", "\U{2708}\U{FE0F}"),
    ("[火车]", "\U{1F684}"),
    ("[自行车]", "\U{1F6B2}")
  ]

  const EmojiMap17: seq<(Shortcode, string)> := [
    ("[圣诞树]", "\U{1F384}"),
    ("[圣诞老人]", "\U{1F385}"),
    ("[灯笼]", "\U{1F3EE}"),
    ("[鞭炮]", "\U{1F9E8}"),
    ("[烟花]", "\U{1F386}"),
    ("[NO]", "\U{1F645}"),
    ("[点赞]", "\U{1F44D}"),
    ("[握手]", "\U{1F91D}")
  ]

  const EmojiMap18: seq<(Shortcode, string)> := [
    ("[胜利]", "\U{270C}\U{FE0F}"),
    ("[抱拳]", "\U{1F64F}"),
    ("[勾引]", "\U{1F48B}"),
    ("[拳头]", "\U{1F44A}"),
    ("[OK]", "\U{1F44C}"),
    ("[跳跳]", "\U{1F483}"),
    ("[发抖]", "\U{1F630}"),
    ("[转圈]", "\U{1F635}\U{200D}\U{1F4AB}")
  ]

  const EmojiMap19: seq<(Shortcode, string)> := [
    ("[打脸]", "\U{1F623}\U{1F44B}"),
    ("[破涕为笑]", "\U{1F602}"),
    ("[脸红]", "\U{1F60A}"),
    ("[嫌弃]", "\U{1F612}"),
    ("[皱眉]", "\U{1F61E}"),
    ("[擦汗]", "\U{1F605}"),
    ("[撇嘴]", "\U{1F60F}"),
    ("[偷看]", "\U{1F440}")
  ]

  const EmojiMap20: seq<(Shortcode, string)> := [
    ("[托腮]", "\U{1F914}"),
    ("[眨眼]", "\U{1F609}"),
    ("[泪奔]", "\U{1F62D}"),
    ("[石化]", "\U{1F636}"),
    ("[喷血]", "\U{1F975}"),
    ("[笑哭]", "\U{1F602}"),
    ("[doge]", "\U{1F436}"),
    ("[滑稽]", "\U{1F921}")
  ]

  const EmojiMap21: seq<(Shortcode, string)> := [
    ("[疼]", "\U{1F915}"),
    ("[再见]", "\U{1F44B}"),
    ("[鄙视]", "\U{1F620}"),
    ("[财迷]", "\U{1F911}"),
    ("[吃惊]", "\U{1F632}"),
    ("[悲催]", "\U{1F62D}"),
    ("[激动]", "\U{1F929}"),
    ("[酷]", "\U{1F60E}")
  ]

  const EmojiMap22: seq<(Shortcode, string)> := [
    ("[抱抱]", "\U{1F917}"),
    ("[坏笑]", "\U{1F60F}"),
    ("[飙泪]", "\U{1F62D}"),
    ("[打call]", "\U{1F44F}"),
    ("[666]", "666"),
    ("[233]", "233"),
    ("[服]", "\U{1F647}"),
    ("[作揖]", "\U{1F647}")
  ]

  const EmojiMap23: seq<(Shortcode, string)> := [
    ("[发财]", "\U{1F911}"),
    ("[来看我]", "\U{1F440}"),
    ("[别想歪]", "\U{1F644}"),
    ("[加我]", "\U{1F64B}"),
    ("[叹气]", "\U{1F62E}\U{200D}\U{1F4A8}"),
    ("[裂开]", "\U{1F631}"),
    ("[羡慕]", "\U{1F929}"),
    ("[求抱抱]", "\U{1F917}")
  ]

  const EmojiMap24: seq<(Shortcode, string)> := [
    ("[我想静静]", "\U{1F636}"),
    ("[允悲]", "\U{1F614}"),
    ("[泪流满面]", "\U{1F62D}"),
    ("[斜眼]", "\U{1F644}"),
    ("[跪了]", "\U{1F9CE}"),
    ("[潜水]", "\U{1F93F}"),
    ("[柠檬]", "\U{1F34B}"),
    ("[冷漠]", "\U{1F610}")
  ]

  const EmojiMap25: seq<(Shortcode, string)> := [
    ("[舔屏]", "\U{1F445}"),
    ("[二哈]", "\U{1F436}"),
    ("[牛年吉祥]", "\U{1F402}"),
    ("[春节快乐]", "\U{1F9E7}"),
    ("[福到了]", "\U{798F}"),
    ("[黑脸]", "\U{1F31A}"),
    ("[捞月亮]", "\U{1F31D}"),
    ("[旺财]", "\U{1F415}")
  ]
}
