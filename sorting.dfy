/** The two orderings the composer uses: list.sort with an integer key
    (stable), and sorted() of distinct strings (code-point lexicographic). */
module Sorting {

  // ---------------------------------------------------------------------------
  // Stable sort by an integer key
  // ---------------------------------------------------------------------------

  ghost predicate SortedBy<T>(s: seq<T>, key: T -> int) {
    forall i, j :: 0 <= i < j < |s| ==> key(s[i]) <= key(s[j])
  }

  /** Places x in front of the first element whose key is not smaller. */
  function Insert<T>(x: T, s: seq<T>, key: T -> int): (r: seq<T>)
    ensures multiset(r) == multiset(s) + multiset{x}
    ensures |r| == |s| + 1
  {
    if s == [] || key(x) <= key(s[0]) then [x] + s
    else
      var tail := Insert(x, s[1..], key);
      assert s == [s[0]] + s[1..];
      [s[0]] + tail
  }

  /** list.sort(key=key): insertion sort from the back, each element going in
      front of its equals, which keeps equal keys in their original order. */
  function SortBy<T>(s: seq<T>, key: T -> int): (r: seq<T>)
    ensures multiset(r) == multiset(s)
  {
    if s == [] then []
    else
      assert s == [s[0]] + s[1..];
      Insert(s[0], SortBy(s[1..], key), key)
  }

  /** The elements whose key is k, in order. */
  function WithKey<T>(s: seq<T>, key: T -> int, k: int): (r: seq<T>)
    ensures |r| <= |s|
  {
    if s == [] then [] else (if key(s[0]) == k then [s[0]] else []) + WithKey(s[1..], key, k)
  }

  lemma {:induction false} InsertSorted<T>(x: T, s: seq<T>, key: T -> int)
    requires SortedBy(s, key)
    ensures SortedBy(Insert(x, s, key), key)
    decreases |s|
  {
    var r := Insert(x, s, key);
    if s == [] || key(x) <= key(s[0]) {
      assert r[1..] == s;
    } else {
      var tail := Insert(x, s[1..], key);
      InsertSorted(x, s[1..], key);
      assert r == [s[0]] + tail;
      forall j | 0 < j < |r|
        ensures key(s[0]) <= key(r[j])
      {
        assert r[j] == tail[j - 1] && tail[j - 1] in multiset(tail);
        if r[j] != x {
          assert r[j] in multiset(s[1..]);
          var q :| 0 <= q < |s[1..]| && s[1..][q] == r[j];
          assert s[q + 1] == r[j];
        }
      }
    }
  }

  /** Inserting into a sorted sequence puts x after every element with a smaller
      key and before all its equals. */
  lemma {:induction false} InsertWithKey<T>(x: T, s: seq<T>, key: T -> int, k: int)
    requires SortedBy(s, key)
    ensures WithKey(Insert(x, s, key), key, k) == (if key(x) == k then [x] else []) + WithKey(s, key, k)
    decreases |s|
  {
    var r := Insert(x, s, key);
    if s == [] || key(x) <= key(s[0]) {
      assert r[0] == x && r[1..] == s;
    } else {
      var tail := Insert(x, s[1..], key);
      InsertWithKey(x, s[1..], key, k);
      assert r[0] == s[0] && r[1..] == tail;
      var rest := WithKey(s[1..], key, k);
      if key(x) == k {
        assert WithKey(r, key, k) == WithKey(tail, key, k) == [x] + rest;
        assert WithKey(s, key, k) == rest;
      } else {
        assert WithKey(tail, key, k) == rest;
      }
    }
  }

  /** The sort orders by key, rearranges without losing or adding anything,
      and keeps each key's elements in their original order. */
  lemma {:induction false} SortByCorrect<T>(s: seq<T>, key: T -> int)
    ensures SortedBy(SortBy(s, key), key)
    ensures multiset(SortBy(s, key)) == multiset(s)
    ensures forall k :: WithKey(SortBy(s, key), key, k) == WithKey(s, key, k)
    decreases |s|
  {
    if s != [] {
      SortByCorrect(s[1..], key);
      InsertSorted(s[0], SortBy(s[1..], key), key);
      forall k
        ensures WithKey(SortBy(s, key), key, k) == WithKey(s, key, k)
      {
        InsertWithKey(s[0], SortBy(s[1..], key), key, k);
      }
    }
  }

  // ---------------------------------------------------------------------------
  // sorted() of strings
  // ---------------------------------------------------------------------------

  /** Python's a < b on str: code-point lexicographic order. */
  predicate Below(a: string, b: string) {
    (a == [] && b != []) ||
    (a != [] && b != [] && (a[0] < b[0] || (a[0] == b[0] && Below(a[1..], b[1..]))))
  }

  lemma {:induction false} BelowIrreflexive(a: string)
    ensures !Below(a, a)
    decreases |a|
  {
    if a != [] {
      BelowIrreflexive(a[1..]);
    }
  }

  lemma {:induction false} BelowTransitive(a: string, b: string, c: string)
    requires Below(a, b) && Below(b, c)
    ensures Below(a, c)
    decreases |a|
  {
    if a != [] && a[0] == b[0] && b[0] == c[0] {
      BelowTransitive(a[1..], b[1..], c[1..]);
    }
  }

  lemma {:induction false} BelowTotal(a: string, b: string)
    requires a != b
    ensures Below(a, b) || Below(b, a)
    decreases |a|
  {
    if a != [] && b != [] && a[0] == b[0] {
      assert a == [a[0]] + a[1..] && b == [b[0]] + b[1..];
      BelowTotal(a[1..], b[1..]);
    }
  }

  ghost predicate Ascending(s: seq<string>) {
    forall i, j :: 0 <= i < j < |s| ==> Below(s[i], s[j])
  }

  function InsertString(x: string, s: seq<string>): (r: seq<string>)
    ensures multiset(r) == multiset(s) + multiset{x}
  {
    if s == [] || Below(x, s[0]) || x == s[0] then [x] + s
    else
      assert s == [s[0]] + s[1..];
      [s[0]] + InsertString(x, s[1..])
  }

  /** sorted(xs) for strings. */
  function SortStrings(s: seq<string>): (r: seq<string>)
    ensures multiset(r) == multiset(s)
  {
    if s == [] then []
    else
      assert s == [s[0]] + s[1..];
      InsertString(s[0], SortStrings(s[1..]))
  }

  lemma {:induction false} InsertStringAscending(x: string, s: seq<string>)
    requires Ascending(s) && x !in s
    ensures Ascending(InsertString(x, s))
    decreases |s|
  {
    var r := InsertString(x, s);
    if s == [] || Below(x, s[0]) || x == s[0] {
      forall j | 1 <= j < |r|
        ensures Below(x, r[j])
      {
        if j > 1 {
          BelowTransitive(x, s[0], s[j - 1]);
        }
      }
    } else {
      BelowTotal(x, s[0]);
      var tail := InsertString(x, s[1..]);
      InsertStringAscending(x, s[1..]);
      assert r == [s[0]] + tail;
      forall j | 0 < j < |r|
        ensures Below(s[0], r[j])
      {
        assert r[j] == tail[j - 1] && tail[j - 1] in multiset(tail);
        if r[j] != x {
          assert r[j] in multiset(s[1..]);
          var q :| 0 <= q < |s[1..]| && s[1..][q] == r[j];
          assert s[q + 1] == r[j];
        }
      }
    }
  }

  /** Distinct strings come out strictly ascending, and they are the same strings. */
  lemma {:induction false} SortStringsCorrect(s: seq<string>)
    requires forall i, j :: 0 <= i < j < |s| ==> s[i] != s[j]
    ensures Ascending(SortStrings(s))
    ensures multiset(SortStrings(s)) == multiset(s)
    decreases |s|
  {
    if s != [] {
      SortStringsCorrect(s[1..]);
      assert s[0] !in multiset(s[1..]);
      assert s[0] !in SortStrings(s[1..]) by {
        assert multiset(SortStrings(s[1..])) == multiset(s[1..]);
      }
      InsertStringAscending(s[0], SortStrings(s[1..]));
    }
  }
}
