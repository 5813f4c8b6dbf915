/** The composer's preparation of the transcript: the two-stage sort on
    CreateTime, grouping by date with setdefault/append, and the sorted list
    of dates. */
module Chats {
  import opened Wrappers
  import opened Transcript
  import opened Sorting

  // ---------------------------------------------------------------------------
  // Sorting
  // ---------------------------------------------------------------------------

  /** The first key function succeeds on every message. */
  predicate PrimarySortable(chats: seq<Message>) {
    forall i :: 0 <= i < |chats| ==> PrimaryKey(chats[i].createTime).Some?
  }

  function PrimaryOrder(m: Message): int {
    match PrimaryKey(m.createTime)
    case Some(k) => k
    case None => 0
  }

  function FallbackOrder(clock: Clock): Message -> int {
    (m: Message) => FallbackKey(clock, m.createTime)
  }

  /** The key the list ends up sorted by: the first one when it can be computed
      for every message (Python computes all keys before moving anything, so a
      failing key leaves the list as it was), else the fallback one. */
  function SortKey(clock: Clock, chats: seq<Message>): Message -> int {
    if PrimarySortable(chats) then PrimaryOrder else FallbackOrder(clock)
  }

  function SortChats(clock: Clock, chats: seq<Message>): seq<Message> {
    SortBy(chats, SortKey(clock, chats))
  }

  /** The sort orders by the chosen key, keeps every message, and keeps
      messages with equal keys in transcript order. */
  lemma SortChatsCorrect(clock: Clock, chats: seq<Message>)
    ensures SortedBy(SortChats(clock, chats), SortKey(clock, chats))
    ensures multiset(SortChats(clock, chats)) == multiset(chats)
    ensures forall k :: WithKey(SortChats(clock, chats), SortKey(clock, chats), k) ==
                        WithKey(chats, SortKey(clock, chats), k)
  {
    SortByCorrect(chats, SortKey(clock, chats));
  }

  // ---------------------------------------------------------------------------
  // Grouping by date
  // ---------------------------------------------------------------------------

  /** dates_dict: its keys in insertion order and the list under each key. */
  datatype DateGroups = DateGroups(dates: seq<string>, byDate: map<string, seq<Message>>)

  /** `dates_dict.setdefault(date, []).append(msg)` for a dated message. */
  function AddMessage(clock: Clock, g: DateGroups, m: Message): DateGroups {
    match DateOf(clock, m)
    case None => g
    case Some(d) =>
      if d in g.byDate then DateGroups(g.dates, g.byDate[d := g.byDate[d] + [m]])
      else DateGroups(g.dates + [d], g.byDate[d := [m]])
  }

  function Grouped(clock: Clock, s: seq<Message>): DateGroups {
    if s == [] then DateGroups([], map[]) else AddMessage(clock, Grouped(clock, s[..|s| - 1]), s[|s| - 1])
  }

  method GroupByDate(clock: Clock, chats: seq<Message>) returns (g: DateGroups)
    ensures g == Grouped(clock, chats)
  {
    g := DateGroups([], map[]);
    var i := 0;
    while i < |chats|
      invariant 0 <= i <= |chats|
      invariant g == Grouped(clock, chats[..i])
    {
      var m := chats[i];
      assert chats[..i + 1][..i] == chats[..i];
      var date := DateOf(clock, m);
      if date.Some? {
        var d := date.value;
        if d in g.byDate {
          g := DateGroups(g.dates, g.byDate[d := g.byDate[d] + [m]]);
        } else {
          g := DateGroups(g.dates + [d], g.byDate[d := [m]]);
        }
      }
      i := i + 1;
    }
    assert chats[..|chats|] == chats;
  }

  /** The messages dated d, in order. */
  function OnDate(clock: Clock, s: seq<Message>, d: string): seq<Message> {
    if s == [] then []
    else OnDate(clock, s[..|s| - 1], d) + (if DateOf(clock, s[|s| - 1]) == Some(d) then [s[|s| - 1]] else [])
  }

  /** The messages that have a date at all. */
  function Dated(clock: Clock, s: seq<Message>): seq<Message> {
    if s == [] then []
    else Dated(clock, s[..|s| - 1]) + (if DateOf(clock, s[|s| - 1]).Some? then [s[|s| - 1]] else [])
  }

  ghost predicate Distinct(ds: seq<string>) {
    forall i, j :: 0 <= i < j < |ds| ==> ds[i] != ds[j]
  }

  /** A date is a key exactly when some message carries it; its list holds
      exactly those messages, in transcript order; keys are listed once each. */
  lemma {:induction false} GroupedCorrect(clock: Clock, s: seq<Message>)
    ensures Distinct(Grouped(clock, s).dates)
    ensures forall d :: d in Grouped(clock, s).dates <==> d in Grouped(clock, s).byDate
    ensures forall d :: d in Grouped(clock, s).byDate <==> OnDate(clock, s, d) != []
    ensures forall d :: d in Grouped(clock, s).byDate ==> Grouped(clock, s).byDate[d] == OnDate(clock, s, d)
    decreases |s|
  {
    if s != [] {
      var p := s[..|s| - 1];
      var m := s[|s| - 1];
      GroupedCorrect(clock, p);
      var g := Grouped(clock, p);
      assert Grouped(clock, s) == AddMessage(clock, g, m);
      forall d
        ensures OnDate(clock, s, d) == OnDate(clock, p, d) + (if DateOf(clock, m) == Some(d) then [m] else [])
      {
      }
    }
  }

  /** The keys of a prefix of the transcript are a prefix of the keys. */
  lemma {:induction false} DatesPrefix(clock: Clock, s: seq<Message>, k: nat)
    requires k <= |s|
    ensures var ps := Grouped(clock, s[..k]).dates;
      |ps| <= |Grouped(clock, s).dates| && ps == Grouped(clock, s).dates[..|ps|]
    decreases |s|
  {
    if k < |s| {
      var p := s[..|s| - 1];
      assert s[..k] == p[..k];
      DatesPrefix(clock, p, k);
    } else {
      assert s[..k] == s;
    }
  }

  /** Keys are listed in first-seen order: in every prefix of the transcript
      in which a key has been seen, every key listed before it has been seen
      as well. */
  lemma GroupedFirstSeen(clock: Clock, s: seq<Message>, k: nat, i: nat, j: nat)
    requires k <= |s| && i < j < |Grouped(clock, s).dates|
    requires OnDate(clock, s[..k], Grouped(clock, s).dates[j]) != []
    ensures OnDate(clock, s[..k], Grouped(clock, s).dates[i]) != []
  {
    var ds := Grouped(clock, s).dates;
    var ps := Grouped(clock, s[..k]).dates;
    DatesPrefix(clock, s, k);
    GroupedCorrect(clock, s);
    GroupedCorrect(clock, s[..k]);
    assert ds[j] in ps;
    var n :| 0 <= n < |ps| && ps[n] == ds[j];
    assert ds[n] == ds[j];
    assert ps[i] == ds[i];
  }

  /** Σ over ds of the number of messages on each date. */
  function DateSum(clock: Clock, s: seq<Message>, ds: seq<string>): nat {
    if ds == [] then 0 else DateSum(clock, s, ds[..|ds| - 1]) + |OnDate(clock, s, ds[|ds| - 1])|
  }

  /** One more message adds one to exactly the entry of its date. */
  lemma {:induction false} DateSumStep(clock: Clock, s: seq<Message>, m: Message, ds: seq<string>)
    requires Distinct(ds)
    ensures DateSum(clock, s + [m], ds) ==
      DateSum(clock, s, ds) + (if DateOf(clock, m).Some? && DateOf(clock, m).value in ds then 1 else 0)
    decreases |ds|
  {
    if ds != [] {
      var e := ds[|ds| - 1];
      var ds' := ds[..|ds| - 1];
      DateSumStep(clock, s, m, ds');
      assert (s + [m])[..|s + [m]| - 1] == s;
      assert DateOf(clock, m).Some? && DateOf(clock, m).value in ds ==>
        (DateOf(clock, m).value in ds' <==> DateOf(clock, m).value != e);
    }
  }

  /** Summed over a list naming each date once, the groups account for every
      dated message. */
  lemma {:induction false} DateSumTotal(clock: Clock, s: seq<Message>, ds: seq<string>)
    requires Distinct(ds)
    requires forall k :: 0 <= k < |s| && DateOf(clock, s[k]).Some? ==> DateOf(clock, s[k]).value in ds
    ensures DateSum(clock, s, ds) == |Dated(clock, s)|
    decreases |s|
  {
    if s == [] {
      EmptySum(clock, ds);
    } else {
      var p := s[..|s| - 1];
      var m := s[|s| - 1];
      DateSumTotal(clock, p, ds);
      assert p + [m] == s;
      DateSumStep(clock, p, m, ds);
    }
  }

  lemma {:induction false} EmptySum(clock: Clock, ds: seq<string>)
    ensures DateSum(clock, [], ds) == 0
    decreases |ds|
  {
    if ds != [] {
      EmptySum(clock, ds[..|ds| - 1]);
    }
  }

  // ---------------------------------------------------------------------------
  // sorted(dates_dict.keys())
  // ---------------------------------------------------------------------------

  function SortedDates(g: DateGroups): seq<string> {
    SortStrings(g.dates)
  }

  /** The dates come out strictly ascending, once each, and are exactly the
      dates of the dated messages. */
  lemma SortedDatesCorrect(clock: Clock, s: seq<Message>)
    ensures Ascending(SortedDates(Grouped(clock, s)))
    ensures forall d :: d in SortedDates(Grouped(clock, s)) <==> OnDate(clock, s, d) != []
    ensures forall d :: d in SortedDates(Grouped(clock, s)) ==> d in Grouped(clock, s).byDate
  {
    var g := Grouped(clock, s);
    GroupedCorrect(clock, s);
    SortStringsCorrect(g.dates);
    forall d
      ensures d in SortedDates(g) <==> d in g.dates
    {
      assert d in multiset(SortedDates(g)) <==> d in multiset(g.dates);
    }
  }
}
