/** The greedy line wrapper (wrap_text). The text is cut into the units of module
    Emoji (an emoji with its modifiers and joined emoji, or one code point); the
    greedy pass is stated over that list of units and for any width function
    `width` (wrap_text only consults widths). The method instantiates it with the
    measurement of module Width in one font and size, answered through the memo
    table. */
module Wrap {
  import opened Emoji
  import opened Width

  /** The line under construction is emitted only when it is not empty. */
  function Flush(group: seq<string>): seq<seq<string>> {
    if Concat(group) == "" then [] else [group]
  }

  /** The greedy pass over the units `us`; `group` holds the units of the current
      line. Each element of the result is the list of units of one output line:
      a unit joins the current line while the measured width stays within maxW;
      otherwise the line is flushed and the unit starts the next one or, when it
      is too wide by itself, gets a line of its own. */
  function Greedy(width: string -> real, us: seq<string>, group: seq<string>, maxW: real): seq<seq<string>>
    decreases |us|
  {
    if us == [] then Flush(group)
    else
      var c := us[0];
      if width(Concat(group) + c) <= maxW then
        Greedy(width, us[1..], group + [c], maxW)
      else if width(c) > maxW then
        Flush(group) + [[c]] + Greedy(width, us[1..], [], maxW)
      else
        Flush(group) + Greedy(width, us[1..], [c], maxW)
  }

  /** The units of each line wrap_text returns; an empty text gives no lines. */
  function WrapGroups(width: string -> real, t: string, maxW: real): seq<seq<string>> {
    if t == "" then [] else Greedy(width, Clusters(t), [], maxW)
  }

  /** One string per group. */
  function Lines(gs: seq<seq<string>>): (ls: seq<string>)
    ensures |ls| == |gs|
  {
    if gs == [] then [] else Lines(gs[..|gs| - 1]) + [Concat(gs[|gs| - 1])]
  }

  /** The lines wrap_text returns. */
  function WrapLines(width: string -> real, t: string, maxW: real): seq<string> {
    Lines(WrapGroups(width, t, maxW))
  }

  /** Concatenation of a sequence of groups of units. */
  function Flatten(gs: seq<seq<string>>): seq<string> {
    if gs == [] then [] else Flatten(gs[..|gs| - 1]) + gs[|gs| - 1]
  }

  // ---------------------------------------------------------------------------
  // Helpers on the sequence functions
  // ---------------------------------------------------------------------------

  lemma {:induction false} LinesAt(gs: seq<seq<string>>, k: nat)
    requires k < |gs|
    ensures Lines(gs)[k] == Concat(gs[k])
    decreases |gs|
  {
    if k < |gs| - 1 {
      LinesAt(gs[..|gs| - 1], k);
    }
  }

  lemma {:induction false} LinesAppend(a: seq<seq<string>>, b: seq<seq<string>>)
    ensures Lines(a + b) == Lines(a) + Lines(b)
    decreases |b|
  {
    if b == [] {
      assert a + b == a;
    } else {
      assert (a + b)[..|a + b| - 1] == a + b[..|b| - 1];
      LinesAppend(a, b[..|b| - 1]);
    }
  }

  lemma {:induction false} FlattenAppend(a: seq<seq<string>>, b: seq<seq<string>>)
    ensures Flatten(a + b) == Flatten(a) + Flatten(b)
    decreases |b|
  {
    if b == [] {
      assert a + b == a;
    } else {
      assert (a + b)[..|a + b| - 1] == a + b[..|b| - 1];
      FlattenAppend(a, b[..|b| - 1]);
    }
  }

  lemma FlattenSingle(g: seq<string>)
    ensures Flatten([g]) == g
  {
    assert [g][..0] == [];
  }

  /** Concatenating the lines is concatenating all their units. */
  lemma {:induction false} ConcatLines(gs: seq<seq<string>>)
    ensures Concat(Lines(gs)) == Concat(Flatten(gs))
    decreases |gs|
  {
    if gs != [] {
      var p := gs[..|gs| - 1];
      ConcatLines(p);
      assert Lines(gs)[..|gs| - 1] == Lines(p);
      ConcatAppend(Flatten(p), gs[|gs| - 1]);
    }
  }

  predicate NonEmptyUnits(g: seq<string>) {
    forall q :: 0 <= q < |g| ==> g[q] != ""
  }

  /** Every group is non-empty and made of non-empty units. */
  predicate WellFormed(gs: seq<seq<string>>) {
    forall k :: 0 <= k < |gs| ==> gs[k] != [] && NonEmptyUnits(gs[k])
  }

  lemma FlushShape(group: seq<string>)
    requires NonEmptyUnits(group)
    ensures Flatten(Flush(group)) == group
    ensures WellFormed(Flush(group))
  {
    ConcatNonEmpty(group);
    if group != [] {
      FlattenSingle(group);
    }
  }

  lemma SplitHead(us: seq<string>)
    requires us != []
    ensures [us[0]] + us[1..] == us
  {
  }

  lemma ClustersNonEmpty(t: string)
    ensures NonEmptyUnits(Clusters(t))
  {
    ClustersShape(t, 0);
  }

  // ---------------------------------------------------------------------------
  // The lines are made of whole units and give back the text
  // ---------------------------------------------------------------------------

  /** The case of a unit too wide by itself, with the emitted lines grouped as
      the current line, the unit's own line and the rest. */
  lemma GreedyAloneStep(width: string -> real, us: seq<string>, group: seq<string>, maxW: real)
    requires us != []
    requires width(Concat(group) + us[0]) > maxW && width(us[0]) > maxW
    ensures Greedy(width, us, group, maxW) == Flush(group) + ([[us[0]]] + Greedy(width, us[1..], [], maxW))
  {
    var rest := Greedy(width, us[1..], [], maxW);
    assert Flush(group) + [[us[0]]] + rest == Flush(group) + ([[us[0]]] + rest);
  }

  /** The greedy pass emits exactly the units still to come, after the current
      line's, as non-empty lines of non-empty units. */
  lemma {:induction false} GreedyPartition(width: string -> real, us: seq<string>, group: seq<string>, maxW: real)
    requires NonEmptyUnits(us) && NonEmptyUnits(group)
    ensures Flatten(Greedy(width, us, group, maxW)) == group + us
    ensures WellFormed(Greedy(width, us, group, maxW))
    decreases |us|, 1
  {
    if us == [] {
      FlushShape(group);
      assert group + us == group;
    } else if width(Concat(group) + us[0]) <= maxW {
      PartitionJoin(width, us, group, maxW);
    } else if width(us[0]) > maxW {
      PartitionAlone(width, us, group, maxW);
    } else {
      PartitionBreak(width, us, group, maxW);
    }
  }

  lemma {:induction false} PartitionJoin(width: string -> real, us: seq<string>, group: seq<string>, maxW: real)
    requires us != [] && NonEmptyUnits(us) && NonEmptyUnits(group)
    requires width(Concat(group) + us[0]) <= maxW
    ensures Flatten(Greedy(width, us, group, maxW)) == group + us
    ensures WellFormed(Greedy(width, us, group, maxW))
    decreases |us|, 0
  {
    var joined := group + [us[0]];
    assert NonEmptyUnits(joined);
    GreedyPartition(width, us[1..], joined, maxW);
    assert joined + us[1..] == group + us;
  }

  lemma {:induction false} PartitionAlone(width: string -> real, us: seq<string>, group: seq<string>, maxW: real)
    requires us != [] && NonEmptyUnits(us) && NonEmptyUnits(group)
    requires width(Concat(group) + us[0]) > maxW && width(us[0]) > maxW
    ensures Flatten(Greedy(width, us, group, maxW)) == group + us
    ensures WellFormed(Greedy(width, us, group, maxW))
    decreases |us|, 0
  {
    GreedyAloneStep(width, us, group, maxW);
    GreedyPartition(width, us[1..], [], maxW);
    assert [] + us[1..] == us[1..];
    AloneShape(group, us[0], Greedy(width, us[1..], [], maxW), us[1..]);
    SplitHead(us);
  }

  /** The lines of `group`, then `c` alone, then `rest` hold the units of all three. */
  lemma AloneShape(group: seq<string>, c: string, rest: seq<seq<string>>, tail: seq<string>)
    requires NonEmptyUnits(group) && c != ""
    requires Flatten(rest) == tail && WellFormed(rest)
    ensures Flatten(Flush(group) + ([[c]] + rest)) == group + ([c] + tail)
    ensures WellFormed(Flush(group) + ([[c]] + rest))
  {
    FlushShape(group);
    FlattenAppend([[c]], rest);
    FlattenSingle([c]);
    FlattenAppend(Flush(group), [[c]] + rest);
  }

  lemma {:induction false} PartitionBreak(width: string -> real, us: seq<string>, group: seq<string>, maxW: real)
    requires us != [] && NonEmptyUnits(us) && NonEmptyUnits(group)
    requires width(Concat(group) + us[0]) > maxW && width(us[0]) <= maxW
    ensures Flatten(Greedy(width, us, group, maxW)) == group + us
    ensures WellFormed(Greedy(width, us, group, maxW))
    decreases |us|, 0
  {
    var rest := Greedy(width, us[1..], [us[0]], maxW);
    GreedyPartition(width, us[1..], [us[0]], maxW);
    FlushShape(group);
    FlattenAppend(Flush(group), rest);
    SplitHead(us);
  }

  /** wrap_text returns groups of whole units, in order, that together are
      exactly the units of the text: no unit is ever split across lines. */
  lemma WrapKeepsClusters(width: string -> real, t: string, maxW: real)
    ensures Flatten(WrapGroups(width, t, maxW)) == Clusters(t)
    ensures WellFormed(WrapGroups(width, t, maxW))
    ensures forall k :: 0 <= k < |WrapGroups(width, t, maxW)| ==>
      WrapLines(width, t, maxW)[k] == Concat(WrapGroups(width, t, maxW)[k])
  {
    ClustersNonEmpty(t);
    GreedyPartition(width, Clusters(t), [], maxW);
    var gs := WrapGroups(width, t, maxW);
    forall k | 0 <= k < |gs| ensures Lines(gs)[k] == Concat(gs[k]) {
      LinesAt(gs, k);
    }
  }

  /** The lines concatenate back to exactly the input, none of them is empty,
      and there are none exactly when the input is empty. */
  lemma WrapRoundTrip(width: string -> real, t: string, maxW: real)
    ensures Concat(WrapLines(width, t, maxW)) == t
    ensures forall k :: 0 <= k < |WrapLines(width, t, maxW)| ==> WrapLines(width, t, maxW)[k] != ""
    ensures WrapLines(width, t, maxW) == [] <==> t == ""
  {
    var gs := WrapGroups(width, t, maxW);
    WrapKeepsClusters(width, t, maxW);
    ConcatLines(gs);
    ClustersConcat(t, 0);
    assert t[0..] == t;
    forall k | 0 <= k < |gs| ensures Lines(gs)[k] != "" {
      ConcatNonEmpty(gs[k]);
    }
    if t != "" {
      ConcatNonEmpty(Lines(gs));
    }
  }

  // ---------------------------------------------------------------------------
  // Width bound
  // ---------------------------------------------------------------------------

  /** A line fits, or it is a single unit that is too wide on its own. */
  predicate LineFits(width: string -> real, g: seq<string>, maxW: real) {
    width(Concat(g)) <= maxW || (|g| == 1 && width(Concat(g)) > maxW)
  }

  predicate AllFit(width: string -> real, gs: seq<seq<string>>, maxW: real) {
    forall k :: 0 <= k < |gs| ==> LineFits(width, gs[k], maxW)
  }

  lemma {:induction false} GreedyWidth(width: string -> real, us: seq<string>, group: seq<string>, maxW: real)
    requires group == [] || width(Concat(group)) <= maxW
    ensures AllFit(width, Greedy(width, us, group, maxW), maxW)
    decreases |us|
  {
    if us != [] {
      var c := us[0];
      ConcatSingle(c);
      if width(Concat(group) + c) <= maxW {
        ConcatAppend(group, [c]);
        GreedyWidth(width, us[1..], group + [c], maxW);
      } else if width(c) > maxW {
        GreedyWidth(width, us[1..], [], maxW);
        var left := Flush(group) + [[c]];
        assert AllFit(width, left, maxW);
      } else {
        GreedyWidth(width, us[1..], [c], maxW);
      }
    }
  }

  /** Every line measures at most maxW, unless it is one unit that is wider
      than maxW by itself and so sits alone on its line. */
  lemma WrapWidthBound(width: string -> real, t: string, maxW: real)
    ensures forall k :: 0 <= k < |WrapLines(width, t, maxW)| ==>
      width(WrapLines(width, t, maxW)[k]) <= maxW ||
      (|WrapGroups(width, t, maxW)[k]| == 1 && width(WrapLines(width, t, maxW)[k]) > maxW)
  {
    if t != "" {
      GreedyWidth(width, Clusters(t), [], maxW);
    }
    var gs := WrapGroups(width, t, maxW);
    forall k | 0 <= k < |gs| ensures Lines(gs)[k] == Concat(gs[k]) {
      LinesAt(gs, k);
    }
  }

  // ---------------------------------------------------------------------------
  // Greediness
  // ---------------------------------------------------------------------------

  /** Line `a` was ended before line `b`: `a` is too wide, or `b`'s first unit did not fit behind it. */
  predicate Ended(width: string -> real, a: seq<string>, b: seq<string>, maxW: real) {
    b != [] && (width(Concat(a)) > maxW || width(Concat(a) + b[0]) > maxW)
  }

  /** Every line but the last was ended because the next line's first unit did
      not fit behind it (or because it was already too wide itself). */
  ghost predicate Maximal(width: string -> real, gs: seq<seq<string>>, maxW: real) {
    forall j, k :: 0 <= j < k < |gs| && k == j + 1 ==> Ended(width, gs[j], gs[k], maxW)
  }

  lemma MaximalAppend(width: string -> real, a: seq<seq<string>>, b: seq<seq<string>>, maxW: real)
    requires Maximal(width, a, maxW) && Maximal(width, b, maxW)
    requires a != [] && b != [] ==> Ended(width, a[|a| - 1], b[0], maxW)
    ensures Maximal(width, a + b, maxW)
  {
    var ab := a + b;
    forall j, k | 0 <= j < k < |ab| && k == j + 1
      ensures Ended(width, ab[j], ab[k], maxW)
    {
      if k < |a| {
        assert ab[j] == a[j] && ab[k] == a[k];
      } else if k == |a| {
        assert ab[j] == a[|a| - 1] && ab[k] == b[0];
      } else {
        assert ab[j] == b[j - |a|] && ab[k] == b[k - |a|];
      }
    }
  }

  /** The first line of a greedy pass starts with the current line's first unit. */
  ghost predicate StartsWith(gs: seq<seq<string>>, group: seq<string>) {
    group != [] ==> gs != [] && gs[0] != [] && gs[0][0] == group[0]
  }

  lemma {:induction false} GreedyMaximal(width: string -> real, us: seq<string>, group: seq<string>, maxW: real)
    requires NonEmptyUnits(us) && NonEmptyUnits(group)
    ensures Maximal(width, Greedy(width, us, group, maxW), maxW)
    ensures StartsWith(Greedy(width, us, group, maxW), group)
    decreases |us|, 1
  {
    if us == [] {
      ConcatNonEmpty(group);
    } else if width(Concat(group) + us[0]) <= maxW {
      MaximalJoin(width, us, group, maxW);
    } else if width(us[0]) > maxW {
      MaximalAlone(width, us, group, maxW);
    } else {
      MaximalBreak(width, us, group, maxW);
    }
  }

  lemma {:induction false} MaximalJoin(width: string -> real, us: seq<string>, group: seq<string>, maxW: real)
    requires us != [] && NonEmptyUnits(us) && NonEmptyUnits(group)
    requires width(Concat(group) + us[0]) <= maxW
    ensures Maximal(width, Greedy(width, us, group, maxW), maxW)
    ensures StartsWith(Greedy(width, us, group, maxW), group)
    decreases |us|, 0
  {
    var joined := group + [us[0]];
    assert NonEmptyUnits(joined);
    GreedyMaximal(width, us[1..], joined, maxW);
    assert group != [] ==> joined[0] == group[0];
  }

  lemma {:induction false} MaximalAlone(width: string -> real, us: seq<string>, group: seq<string>, maxW: real)
    requires us != [] && NonEmptyUnits(us) && NonEmptyUnits(group)
    requires width(Concat(group) + us[0]) > maxW && width(us[0]) > maxW
    ensures Maximal(width, Greedy(width, us, group, maxW), maxW)
    ensures StartsWith(Greedy(width, us, group, maxW), group)
    decreases |us|, 0
  {
    var c := us[0];
    var rest := Greedy(width, us[1..], [], maxW);
    GreedyAloneStep(width, us, group, maxW);
    GreedyMaximal(width, us[1..], [], maxW);
    if rest != [] {
      GreedyPartition(width, us[1..], [], maxW);
      ConcatSingle(c);
      assert Ended(width, [c], rest[0], maxW);
    }
    AlonePrefix(width, group, c, rest, maxW);
  }

  lemma {:induction false} MaximalBreak(width: string -> real, us: seq<string>, group: seq<string>, maxW: real)
    requires us != [] && NonEmptyUnits(us) && NonEmptyUnits(group)
    requires width(Concat(group) + us[0]) > maxW && width(us[0]) <= maxW
    ensures Maximal(width, Greedy(width, us, group, maxW), maxW)
    ensures StartsWith(Greedy(width, us, group, maxW), group)
    decreases |us|, 0
  {
    var rest := Greedy(width, us[1..], [us[0]], maxW);
    GreedyMaximal(width, us[1..], [us[0]], maxW);
    ConcatNonEmpty(group);
    MaximalAppend(width, Flush(group), rest, maxW);
  }

  /** Flushing `group` before a line holding just `c` and then `rest` keeps the lines maximal. */
  lemma AlonePrefix(width: string -> real, group: seq<string>, c: string, rest: seq<seq<string>>, maxW: real)
    requires Maximal(width, rest, maxW)
    requires rest != [] ==> Ended(width, [c], rest[0], maxW)
    requires NonEmptyUnits(group)
    requires group != [] ==> width(Concat(group) + c) > maxW
    ensures Maximal(width, Flush(group) + ([[c]] + rest), maxW)
    ensures StartsWith(Flush(group) + ([[c]] + rest), group)
  {
    ConcatNonEmpty(group);
    ConcatSingle(c);
    MaximalAppend(width, [[c]], rest, maxW);
    MaximalAppend(width, Flush(group), [[c]] + rest, maxW);
  }

  /** Greedy filling: each line but the last was ended only because the next
      line's first unit did not fit behind it, or because it was itself too wide. */
  lemma WrapGreedy(width: string -> real, t: string, maxW: real)
    ensures forall k :: 0 < k < |WrapGroups(width, t, maxW)| ==>
      WrapGroups(width, t, maxW)[k] != [] &&
      (width(WrapLines(width, t, maxW)[k - 1]) > maxW ||
       width(WrapLines(width, t, maxW)[k - 1] + WrapGroups(width, t, maxW)[k][0]) > maxW)
  {
    var gs := WrapGroups(width, t, maxW);
    if t != "" {
      ClustersNonEmpty(t);
      GreedyMaximal(width, Clusters(t), [], maxW);
    }
    forall k | 0 < k < |gs|
      ensures gs[k] != [] && (width(Lines(gs)[k - 1]) > maxW || width(Lines(gs)[k - 1] + gs[k][0]) > maxW)
    {
      assert Ended(width, gs[k - 1], gs[k], maxW);
      LinesAt(gs, k - 1);
    }
  }

  // ---------------------------------------------------------------------------
  // The imperative wrapper
  // ---------------------------------------------------------------------------

  /** The lines emitted so far, with the current line appended when it is not empty. */
  function Emit(lines: seq<string>, current: string): seq<string> {
    if current != "" then lines + [current] else lines
  }

  /** The wrapper's loop over the units still to come, in terms of its own state:
      the lines emitted so far and the text of the current line. */
  function Scan(width: string -> real, us: seq<string>, lines: seq<string>, current: string, maxW: real): seq<string>
    decreases |us|
  {
    if us == [] then Emit(lines, current)
    else
      var c := us[0];
      if width(current + c) <= maxW then
        Scan(width, us[1..], lines, current + c, maxW)
      else if width(c) > maxW then
        Scan(width, us[1..], Emit(lines, current) + [c], "", maxW)
      else
        Scan(width, us[1..], Emit(lines, current), c, maxW)
  }

  /** Emitting the current line adds its text to the lines only when it is not empty. */
  lemma LinesFlush(done: seq<seq<string>>, group: seq<string>)
    requires NonEmptyUnits(group)
    ensures Lines(done + Flush(group)) == Emit(Lines(done), Concat(group))
  {
    LinesAppend(done, Flush(group));
    if Concat(group) != "" {
      assert Lines([group]) == Lines([group][..0]) + [Concat(group)];
    }
  }

  /** The loop computes the lines of the greedy grouping: started in the state
      (lines of `done`, text of `group`) it yields the lines of `done` followed by
      the rest of the greedy pass. */
  lemma {:induction false} ScanGreedy(width: string -> real, us: seq<string>, done: seq<seq<string>>,
                                     group: seq<string>, maxW: real)
    requires NonEmptyUnits(us) && NonEmptyUnits(group)
    ensures Scan(width, us, Lines(done), Concat(group), maxW) == Lines(done + Greedy(width, us, group, maxW))
    decreases |us|, 1
  {
    if us == [] {
      LinesFlush(done, group);
    } else if width(Concat(group) + us[0]) <= maxW {
      ScanJoin(width, us, done, group, maxW);
    } else if width(us[0]) > maxW {
      ScanAlone(width, us, done, group, maxW);
    } else {
      ScanBreak(width, us, done, group, maxW);
    }
  }

  lemma {:induction false} ScanJoin(width: string -> real, us: seq<string>, done: seq<seq<string>>,
                                   group: seq<string>, maxW: real)
    requires us != [] && NonEmptyUnits(us) && NonEmptyUnits(group)
    requires width(Concat(group) + us[0]) <= maxW
    ensures Scan(width, us, Lines(done), Concat(group), maxW) == Lines(done + Greedy(width, us, group, maxW))
    decreases |us|, 0
  {
    var joined := group + [us[0]];
    assert NonEmptyUnits(joined);
    ConcatAppend(group, [us[0]]);
    ConcatSingle(us[0]);
    ScanGreedy(width, us[1..], done, joined, maxW);
  }

  lemma {:induction false} ScanAlone(width: string -> real, us: seq<string>, done: seq<seq<string>>,
                                    group: seq<string>, maxW: real)
    requires us != [] && NonEmptyUnits(us) && NonEmptyUnits(group)
    requires width(Concat(group) + us[0]) > maxW && width(us[0]) > maxW
    ensures Scan(width, us, Lines(done), Concat(group), maxW) == Lines(done + Greedy(width, us, group, maxW))
    decreases |us|, 0
  {
    var c := us[0];
    var before := done + Flush(group) + [[c]];
    var rest := Greedy(width, us[1..], [], maxW);
    calc {
      Scan(width, us, Lines(done), Concat(group), maxW);
      Scan(width, us[1..], Emit(Lines(done), Concat(group)) + [c], "", maxW);
      { LinesFlush(done, group);
        LinesAppend(done + Flush(group), [[c]]);
        ConcatSingle(c);
        assert Lines([[c]]) == Lines([[c]][..0]) + [Concat([c])]; }
      Scan(width, us[1..], Lines(before), "", maxW);
      { assert Concat([]) == "";
        ScanGreedy(width, us[1..], before, [], maxW); }
      Lines(before + rest);
      { assert before + rest == done + (Flush(group) + ([[c]] + rest));
        GreedyAloneStep(width, us, group, maxW); }
      Lines(done + Greedy(width, us, group, maxW));
    }
  }

  lemma {:induction false} ScanBreak(width: string -> real, us: seq<string>, done: seq<seq<string>>,
                                    group: seq<string>, maxW: real)
    requires us != [] && NonEmptyUnits(us) && NonEmptyUnits(group)
    requires width(Concat(group) + us[0]) > maxW && width(us[0]) <= maxW
    ensures Scan(width, us, Lines(done), Concat(group), maxW) == Lines(done + Greedy(width, us, group, maxW))
    decreases |us|, 0
  {
    var c := us[0];
    var before := done + Flush(group);
    var rest := Greedy(width, us[1..], [c], maxW);
    calc {
      Scan(width, us, Lines(done), Concat(group), maxW);
      Scan(width, us[1..], Emit(Lines(done), Concat(group)), c, maxW);
      { LinesFlush(done, group); ConcatSingle(c); }
      Scan(width, us[1..], Lines(before), Concat([c]), maxW);
      { ScanGreedy(width, us[1..], before, [c], maxW); }
      Lines(before + rest);
      { assert before + rest == done + (Flush(group) + rest); }
      Lines(done + (Flush(group) + rest));
      Lines(done + Greedy(width, us, group, maxW));
    }
  }

  /** The loop started at the beginning yields exactly the lines of the greedy grouping. */
  lemma ScanIsWrap(width: string -> real, t: string, maxW: real)
    requires t != ""
    ensures Scan(width, Clusters(t), [], "", maxW) == WrapLines(width, t, maxW)
  {
    ClustersNonEmpty(t);
    ScanGreedy(width, Clusters(t), [], [], maxW);
    assert Lines([]) == [] && Concat([]) == "";
    assert [] + Greedy(width, Clusters(t), [], maxW) == Greedy(width, Clusters(t), [], maxW);
  }

  /** The state the loop reaches after the unit c: c joins the current line,
      or the current line is emitted and c gets a line of its own or starts
      the next one. */
  function Next(width: string -> real, c: string, lines: seq<string>, current: string, maxW: real)
    : (seq<string>, string)
  {
    if width(current + c) <= maxW then (lines, current + c)
    else if width(c) > maxW then (Emit(lines, current) + [c], "")
    else (Emit(lines, current), c)
  }

  /** One iteration of the loop, for the unit c that the scan finds at i. */
  lemma ScanStep(width: string -> real, t: string, i: nat, c: string, lines: seq<string>, current: string, maxW: real)
    requires i < |t| && c == t[i..ClusterEnd(t, i)]
    ensures i + |c| == ClusterEnd(t, i)
    ensures var st := Next(width, c, lines, current, maxW);
      Scan(width, ClustersFrom(t, i + |c|), st.0, st.1, maxW) == Scan(width, ClustersFrom(t, i), lines, current, maxW)
  {
    var us := ClustersFrom(t, i);
    assert us[0] == c && us[1..] == ClustersFrom(t, i + |c|);
  }

  /** One iteration of wrap_text's loop: the unit at i is measured against the
      current line and committed to it, to the next line or to a line of its own. */
  method WrapStep(cache: WidthCache, text: string, font: string, size: real, maxW: real,
                  i: nat, lines: seq<string>, current: string)
    returns (i': nat, lines': seq<string>, current': string)
    requires cache.Valid() && i < |text|
    modifies cache
    ensures cache.Valid()
    ensures i' == ClusterEnd(text, i)
    ensures (lines', current') == Next(WidthIn(cache.env, font, size), text[i..i'], lines, current, maxW)
  {
    ghost var width := WidthIn(cache.env, font, size);
    var n := ClusterLength(text, i);
    var c := text[i..i + n];
    i' := i + n;
    var w := cache.Measure(current + c, font, size);
    assert w == width(current + c);
    if w <= maxW {
      lines', current' := lines, current + c;
    } else {
      lines' := Emit(lines, current);
      var cw := cache.Measure(c, font, size);
      assert cw == width(c);
      if cw > maxW {
        lines', current' := lines' + [c], "";
      } else {
        current' := c;
      }
    }
    assert (lines', current') == Next(width, c, lines, current, maxW);
  }

  /** wrap_text: scans unit by unit, committing each unit to the current line
      while the memoised width fits. */
  method WrapText(cache: WidthCache, text: string, font: string, size: real, maxW: real)
    returns (lines: seq<string>)
    requires cache.Valid()
    modifies cache
    ensures cache.Valid()
    ensures lines == WrapLines(WidthIn(cache.env, font, size), text, maxW)
  {
    if text == "" {
      return [];
    }
    ghost var width := WidthIn(cache.env, font, size);
    ghost var total := Scan(width, Clusters(text), [], "", maxW);
    lines := [];
    var current := "";
    var i := 0;
    while i < |text|
      invariant i <= |text|
      invariant cache.Valid()
      invariant Scan(width, ClustersFrom(text, i), lines, current, maxW) == total
      decreases |text| - i
    {
      ScanStep(width, text, i, text[i..ClusterEnd(text, i)], lines, current, maxW);
      i, lines, current := WrapStep(cache, text, font, size, maxW, i, lines, current);
    }
    if current != "" {
      lines := lines + [current];
    }
    ScanIsWrap(width, text, maxW);
  }
}
