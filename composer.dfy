/** generate_pdf's composition loop: sort the transcript, group it by date,
    then walk the dates in ascending order, recording one bookmark per date and
    drawing each of its messages, with a page break whenever a message leaves
    the cursor below the bottom margin. The file handling around it (loading,
    the title lines, the users table, the avatars) is outside the model. */
module Composer {
  import opened Wrappers
  import opened Decimal
  import opened Transcript
  import opened Sorting
  import opened Chats
  import opened Width
  import opened Layout
  import opened Pages
  import Shortcodes

  /** A bookmark: its title and the 0-based page it points at. */
  datatype Bookmark = Bookmark(title: string, page: nat)

  /** The cover bookmark, which always comes first and points at page 0. */
  const CoverTitle: string := "微信聊天记录"

  /** "{date} ({n}条)". */
  function BookmarkTitle(date: string, n: nat): (title: string)
    ensures |title| > |date| + 4 && title[..|date|] == date
    ensures title[|title| - 2..] == "条)"
  {
    date + " (" + NatToString(n) + "条)"
  }

  /** The count can be read back from a title: after the date and " (",
      up to the closing "条)", stands the count's decimal numeral. */
  lemma BookmarkTitleCount(date: string, n: nat)
    ensures var title := BookmarkTitle(date, n);
      |title| > |date| + 4 &&
      IsDigits(title[|date| + 2..|title| - 2]) && DigitsValue(title[|date| + 2..|title| - 2]) == n
  {
    var title := BookmarkTitle(date, n);
    assert title[|date| + 2..|title| - 2] == NatToString(n);
    NatToStringRoundTrip(n);
  }

  /** The drawing position and the number of page breaks so far (which is
      the 0-based number of the page being drawn). */
  datatype Cursor = Cursor(y: real, page: nat)

  /** Where the first message of the document is drawn. */
  const StartY: real := PageHeight - TopMargin
  /** Where drawing resumes after the composer's own page break. */
  const ResetY: real := PageHeight - TopMargin - 5.0

  const Start: Cursor := Cursor(StartY, 0)

  /** The page a message is drawn on: the cursor's page, or the next one when
      draw_message breaks before drawing it. */
  function DrawnOn(env: FontEnv, table: Shortcodes.ShortcodeTable, media: MediaEnv, c: Cursor, m: Message): nat {
    c.page + (if Draw(env, table, media, m, c.y).newPage then 1 else 0)
  }

  /** DrawnOn for one font and media environment. */
  function DrawnOf(env: FontEnv, table: Shortcodes.ShortcodeTable, media: MediaEnv): (Cursor, Message) -> nat {
    (c: Cursor, m: Message) => DrawnOn(env, table, media, c, m)
  }

  /** One message: draw it, then break the page if it ended below the margin. */
  function Advance(env: FontEnv, table: Shortcodes.ShortcodeTable, media: MediaEnv, c: Cursor, m: Message): Cursor {
    var o := Draw(env, table, media, m, c.y);
    var page := DrawnOn(env, table, media, c, m);
    if o.y < BottomMargin then Cursor(ResetY, page + 1) else Cursor(o.y, page)
  }

  /** The per-message step of the composer for one font and media environment. */
  function StepOf(env: FontEnv, table: Shortcodes.ShortcodeTable, media: MediaEnv): (Cursor, Message) -> Cursor {
    (c: Cursor, m: Message) => Advance(env, table, media, c, m)
  }

  /** The messages of one date, in order. */
  function RunMessages(step: (Cursor, Message) -> Cursor, c: Cursor, ms: seq<Message>): Cursor {
    if ms == [] then c
    else step(RunMessages(step, c, ms[..|ms| - 1]), ms[|ms| - 1])
  }

  datatype Progress = Progress(cursor: Cursor, bookmarks: seq<Bookmark>)

  /** The dates, in the given order: a bookmark at the current page, then the
      messages of the date. */
  function RunDates(step: (Cursor, Message) -> Cursor, g: DateGroups, ds: seq<string>): Progress
    requires forall k :: 0 <= k < |ds| ==> ds[k] in g.byDate
  {
    if ds == [] then Progress(Start, [])
    else
      var p := RunDates(step, g, ds[..|ds| - 1]);
      var d := ds[|ds| - 1];
      var b := Bookmark(BookmarkTitle(d, |g.byDate[d]|), p.cursor.page);
      Progress(RunMessages(step, p.cursor, g.byDate[d]), p.bookmarks + [b])
  }

  /** The page the last message of the dates is drawn on, `at` giving the page
      each message is drawn on, or 0 when there is no message. */
  function LastDrawn(step: (Cursor, Message) -> Cursor, at: (Cursor, Message) -> nat, g: DateGroups, ds: seq<string>): nat
    requires forall k :: 0 <= k < |ds| ==> ds[k] in g.byDate
  {
    if ds == [] then 0
    else
      var ds' := ds[..|ds| - 1];
      var ms := g.byDate[ds[|ds| - 1]];
      if ms == [] then LastDrawn(step, at, g, ds')
      else at(RunMessages(step, RunDates(step, g, ds').cursor, ms[..|ms| - 1]), ms[|ms| - 1])
  }

  /** What composition leaves behind: the bookmark list and the number of pages
      the tracker recorded. */
  datatype Document = Document(bookmarks: seq<Bookmark>, pageCount: nat)

  function Groups(clock: Clock, chats: seq<Message>): DateGroups {
    Grouped(clock, SortChats(clock, chats))
  }

  function Dates(clock: Clock, chats: seq<Message>): (ds: seq<string>)
    ensures forall k :: 0 <= k < |ds| ==> ds[k] in Groups(clock, chats).byDate
  {
    SortedDatesCorrect(clock, SortChats(clock, chats));
    SortedDates(Groups(clock, chats))
  }

  /** The last page with a message on it: the page the last message is drawn
      on, before the composer's own break (which leaves a fresh, empty
      page). */
  function LastPage(env: FontEnv, table: Shortcodes.ShortcodeTable, media: MediaEnv, clock: Clock, chats: seq<Message>): nat {
    LastDrawn(StepOf(env, table, media), DrawnOf(env, table, media), Groups(clock, chats), Dates(clock, chats))
  }

  /** generate_pdf from the sort to save: nothing for an empty transcript or
      one without a single dated message. */
  function Compose(env: FontEnv, table: Shortcodes.ShortcodeTable, media: MediaEnv, clock: Clock, chats: seq<Message>): Option<Document> {
    if chats == [] || Groups(clock, chats).dates == [] then None
    else
      var p := RunDates(StepOf(env, table, media), Groups(clock, chats), Dates(clock, chats));
      Some(Document([Bookmark(CoverTitle, 0)] + p.bookmarks, p.cursor.page + 1))
  }

  // ---------------------------------------------------------------------------
  // The composing methods
  // ---------------------------------------------------------------------------

  /** One message of the inner loop: draw it and break the page when it
      ended below the margin. */
  method DrawAndBreak(tracker: PageTracker, cache: WidthCache, table: Shortcodes.ShortcodeTable, media: MediaEnv, m: Message, y: real)
    returns (next: real)
    requires tracker.Valid() && cache.Valid()
    modifies tracker, cache
    ensures tracker.Valid() && cache.Valid()
    ensures Cursor(next, tracker.currentPage) == StepOf(cache.env, table, media)(Cursor(y, old(tracker.currentPage)), m)
  {
    next := DrawMessage(tracker, cache, table, media, m, y);
    if next < BottomMargin {
      tracker.ShowPage();
      next := ResetY;
    }
  }

  /** One more message: the step applied to where the earlier ones left the cursor. */
  lemma RunMessagesStep(step: (Cursor, Message) -> Cursor, c: Cursor, ms: seq<Message>, j: nat)
    requires j < |ms|
    ensures RunMessages(step, c, ms[..j + 1]) == step(RunMessages(step, c, ms[..j]), ms[j])
  {
    assert ms[..j + 1][..j] == ms[..j];
  }

  /** The inner loop: the messages of one date. */
  method DrawDay(tracker: PageTracker, cache: WidthCache, table: Shortcodes.ShortcodeTable, media: MediaEnv, msgs: seq<Message>, y: real)
    returns (next: real)
    requires tracker.Valid() && cache.Valid()
    modifies tracker, cache
    ensures tracker.Valid() && cache.Valid()
    ensures Cursor(next, tracker.currentPage) ==
      RunMessages(StepOf(cache.env, table, media), Cursor(y, old(tracker.currentPage)), msgs)
  {
    ghost var start := Cursor(y, tracker.currentPage);
    next := y;
    var j := 0;
    while j < |msgs|
      invariant 0 <= j <= |msgs|
      invariant tracker.Valid() && cache.Valid()
      invariant Cursor(next, tracker.currentPage) == RunMessages(StepOf(cache.env, table, media), start, msgs[..j])
    {
      RunMessagesStep(StepOf(cache.env, table, media), start, msgs, j);
      next := DrawAndBreak(tracker, cache, table, media, msgs[j], next);
      j := j + 1;
    }
    assert msgs[..|msgs|] == msgs;
  }

  /** The outer loop: a bookmark per date, then the date's messages. */
  method DrawDates(tracker: PageTracker, cache: WidthCache, table: Shortcodes.ShortcodeTable, media: MediaEnv, g: DateGroups, dates: seq<string>)
    returns (bookmarks: seq<Bookmark>, y: real)
    requires tracker.Valid() && cache.Valid()
    requires tracker.currentPage == 0
    requires forall k :: 0 <= k < |dates| ==> dates[k] in g.byDate
    modifies tracker, cache
    ensures tracker.Valid() && cache.Valid()
    ensures RunDates(StepOf(cache.env, table, media), g, dates) == Progress(Cursor(y, tracker.currentPage), bookmarks)
  {
    bookmarks := [];
    y := StartY;
    var i := 0;
    while i < |dates|
      invariant 0 <= i <= |dates|
      invariant tracker.Valid() && cache.Valid()
      invariant RunDates(StepOf(cache.env, table, media), g, dates[..i]) == Progress(Cursor(y, tracker.currentPage), bookmarks)
    {
      assert dates[..i + 1][..i] == dates[..i];
      var d := dates[i];
      var msgs := g.byDate[d];
      var page := tracker.GetPageNumber();
      bookmarks := bookmarks + [Bookmark(BookmarkTitle(d, |msgs|), page)];
      y := DrawDay(tracker, cache, table, media, msgs, y);
      i := i + 1;
    }
    assert dates[..|dates|] == dates;
  }

  /** generate_pdf: the page tracker is created here; the width memo is the
      module-wide one and is passed in. */
  method GeneratePdf(cache: WidthCache, media: MediaEnv, clock: Clock, chats: seq<Message>)
    returns (doc: Option<Document>)
    requires cache.Valid()
    modifies cache
    ensures cache.Valid()
    ensures doc == Compose(cache.env, Shortcodes.EmojiTable, media, clock, chats)
  {
    if chats == [] {
      return None;
    }
    var sorted := SortChats(clock, chats);
    var g := GroupByDate(clock, sorted);
    if g.dates == [] {
      return None;
    }
    var tracker := new PageTracker(A4Width, A4Height);
    var dates := Dates(clock, chats);
    var bookmarks, y := DrawDates(tracker, cache, Shortcodes.EmojiTable, media, g, dates);
    tracker.Save();
    doc := Some(Document([Bookmark(CoverTitle, 0)] + bookmarks, |tracker.pages|));
  }

  // ---------------------------------------------------------------------------
  // The cursor
  // ---------------------------------------------------------------------------

  /** One message keeps the cursor inside the printable band, at least 5 mm
      below the top position, and adds at most two pages (its own break and
      the composer's). */
  lemma AdvanceInBand(env: FontEnv, table: Shortcodes.ShortcodeTable, media: MediaEnv, c: Cursor, m: Message)
    requires c.y <= StartY
    ensures var r := Advance(env, table, media, c, m);
      BottomMargin <= r.y <= StartY - 5.0 && c.page <= r.page <= c.page + 2
  {
    DrawDescends(env, table, media, m, c.y);
  }

  /** The composer's step never moves back a page. */
  lemma StepOfForward(env: FontEnv, table: Shortcodes.ShortcodeTable, media: MediaEnv)
    ensures forall c: Cursor, m: Message :: c.page <= StepOf(env, table, media)(c, m).page
  {
  }

  /** The composer's step keeps the cursor in the band. */
  lemma StepOfInBand(env: FontEnv, table: Shortcodes.ShortcodeTable, media: MediaEnv)
    ensures forall c: Cursor, m: Message :: BottomMargin <= c.y <= StartY ==>
      BottomMargin <= StepOf(env, table, media)(c, m).y <= StartY
  {
    forall c: Cursor, m: Message | BottomMargin <= c.y <= StartY
      ensures BottomMargin <= StepOf(env, table, media)(c, m).y <= StartY
    {
      AdvanceInBand(env, table, media, c, m);
    }
  }

  /** Under a step that keeps the cursor in the band, so do the messages of a
      date. */
  lemma {:induction false} RunMessagesInBand(step: (Cursor, Message) -> Cursor, c: Cursor, ms: seq<Message>)
    requires forall c: Cursor, m: Message :: BottomMargin <= c.y <= StartY ==> BottomMargin <= step(c, m).y <= StartY
    requires BottomMargin <= c.y <= StartY
    ensures BottomMargin <= RunMessages(step, c, ms).y <= StartY
    decreases |ms|
  {
    if ms != [] {
      RunMessagesInBand(step, c, ms[..|ms| - 1]);
    }
  }

  /** Under a step that never moves back a page, neither do the messages of a
      date. */
  lemma {:induction false} RunMessagesForward(step: (Cursor, Message) -> Cursor, c: Cursor, ms: seq<Message>)
    requires forall c: Cursor, m: Message :: c.page <= step(c, m).page
    ensures c.page <= RunMessages(step, c, ms).page
    decreases |ms|
  {
    if ms != [] {
      RunMessagesForward(step, c, ms[..|ms| - 1]);
    }
  }

  /** Over the dates the cursor stays in the band. */
  lemma {:induction false} RunDatesInBand(step: (Cursor, Message) -> Cursor, g: DateGroups, ds: seq<string>)
    requires forall c: Cursor, m: Message :: BottomMargin <= c.y <= StartY ==> BottomMargin <= step(c, m).y <= StartY
    requires forall k :: 0 <= k < |ds| ==> ds[k] in g.byDate
    ensures BottomMargin <= RunDates(step, g, ds).cursor.y <= StartY
    decreases |ds|
  {
    if ds != [] {
      var ds' := ds[..|ds| - 1];
      RunDatesInBand(step, g, ds');
      RunMessagesInBand(step, RunDates(step, g, ds').cursor, g.byDate[ds[|ds| - 1]]);
    }
  }

  /** One bookmark per date, titled with the date and its message count. */
  lemma {:induction false} RunDatesTitles(step: (Cursor, Message) -> Cursor, g: DateGroups, ds: seq<string>)
    requires forall k :: 0 <= k < |ds| ==> ds[k] in g.byDate
    ensures var bs := RunDates(step, g, ds).bookmarks;
      |bs| == |ds| &&
      forall k :: 0 <= k < |ds| ==> bs[k].title == BookmarkTitle(ds[k], |g.byDate[ds[k]]|)
    decreases |ds|
  {
    if ds != [] {
      RunDatesTitles(step, g, ds[..|ds| - 1]);
    }
  }

  /** The bookmark pages never decrease and none lies beyond the page being
      drawn. */
  lemma {:induction false} RunDatesPages(step: (Cursor, Message) -> Cursor, g: DateGroups, ds: seq<string>)
    requires forall c: Cursor, m: Message :: c.page <= step(c, m).page
    requires forall k :: 0 <= k < |ds| ==> ds[k] in g.byDate
    ensures var p := RunDates(step, g, ds);
      |p.bookmarks| == |ds| &&
      (forall i, j :: 0 <= i < j < |ds| ==> p.bookmarks[i].page <= p.bookmarks[j].page) &&
      (forall k :: 0 <= k < |ds| ==> p.bookmarks[k].page <= p.cursor.page)
    decreases |ds|
  {
    if ds != [] {
      var ds' := ds[..|ds| - 1];
      RunDatesPages(step, g, ds');
      var p := RunDates(step, g, ds');
      RunMessagesForward(step, p.cursor, g.byDate[ds[|ds| - 1]]);
    }
  }

  /** The last message is drawn no later than the page the cursor ends on. */
  lemma {:induction false} LastDrawnBelow(step: (Cursor, Message) -> Cursor, at: (Cursor, Message) -> nat,
                                          g: DateGroups, ds: seq<string>)
    requires forall c: Cursor, m: Message :: c.page <= step(c, m).page
    requires forall c: Cursor, m: Message :: at(c, m) <= step(c, m).page
    requires forall k :: 0 <= k < |ds| ==> ds[k] in g.byDate
    ensures LastDrawn(step, at, g, ds) <= RunDates(step, g, ds).cursor.page
    decreases |ds|
  {
    if ds != [] {
      var ds' := ds[..|ds| - 1];
      var p := RunDates(step, g, ds');
      var ms := g.byDate[ds[|ds| - 1]];
      if ms == [] {
        LastDrawnBelow(step, at, g, ds');
      }
    }
  }

  /** When the last date has a message, every bookmark points at or before
      the page that message is drawn on. */
  lemma RunDatesLastDrawn(step: (Cursor, Message) -> Cursor, at: (Cursor, Message) -> nat,
                          g: DateGroups, ds: seq<string>)
    requires forall c: Cursor, m: Message :: c.page <= step(c, m).page
    requires forall c: Cursor, m: Message :: c.page <= at(c, m)
    requires forall k :: 0 <= k < |ds| ==> ds[k] in g.byDate
    requires ds != [] && g.byDate[ds[|ds| - 1]] != []
    ensures var bs := RunDates(step, g, ds).bookmarks;
      |bs| == |ds| && forall k :: 0 <= k < |bs| ==> bs[k].page <= LastDrawn(step, at, g, ds)
  {
    var ds' := ds[..|ds| - 1];
    var p := RunDates(step, g, ds');
    var ms := g.byDate[ds[|ds| - 1]];
    RunDatesPages(step, g, ds');
    RunMessagesForward(step, p.cursor, ms[..|ms| - 1]);
  }

  /** The composer's cursor stays between the bottom margin and the start
      position through the whole document. */
  lemma DocumentInBand(env: FontEnv, table: Shortcodes.ShortcodeTable, media: MediaEnv, clock: Clock, chats: seq<Message>)
    ensures BottomMargin <= RunDates(StepOf(env, table, media), Groups(clock, chats), Dates(clock, chats)).cursor.y <= StartY
  {
    StepOfInBand(env, table, media);
    RunDatesInBand(StepOf(env, table, media), Groups(clock, chats), Dates(clock, chats));
  }

  // ---------------------------------------------------------------------------
  // The document
  // ---------------------------------------------------------------------------

  /** No document exactly when the transcript is empty or holds no dated
      message. */
  lemma ComposeNone(env: FontEnv, table: Shortcodes.ShortcodeTable, media: MediaEnv, clock: Clock, chats: seq<Message>)
    ensures Compose(env, table, media, clock, chats).None? <==>
      chats == [] || forall d :: OnDate(clock, SortChats(clock, chats), d) == []
  {
    var s := SortChats(clock, chats);
    GroupedCorrect(clock, s);
    var g := Grouped(clock, s);
    if g.dates != [] {
      assert OnDate(clock, s, g.dates[0]) != [];
    } else {
      forall d
        ensures OnDate(clock, s, d) == []
      {
        assert d !in g.dates;
      }
    }
  }

  /** The bookmarks: the cover first at page 0, then one per date with a
      message, in ascending date order, each titled with its date and the
      number of messages on it. */
  lemma BookmarkShape(env: FontEnv, table: Shortcodes.ShortcodeTable, media: MediaEnv, clock: Clock, chats: seq<Message>)
    requires Compose(env, table, media, clock, chats).Some?
    ensures var bs := Compose(env, table, media, clock, chats).value.bookmarks;
      var ds := Dates(clock, chats);
      var s := SortChats(clock, chats);
      bs[0] == Bookmark(CoverTitle, 0) &&
      |bs| == |ds| + 1 &&
      Ascending(ds) &&
      (forall d :: d in ds <==> OnDate(clock, s, d) != []) &&
      (forall k :: 0 <= k < |ds| ==> bs[k + 1].title == BookmarkTitle(ds[k], |OnDate(clock, s, ds[k])|))
  {
    var s := SortChats(clock, chats);
    var g := Groups(clock, chats);
    var ds := Dates(clock, chats);
    SortedDatesCorrect(clock, s);
    GroupedCorrect(clock, s);
    CoverTitles(StepOf(env, table, media), g, ds);
  }

  /** Behind the cover, the k-th bookmark is titled with the k-th date and its
      message count. */
  lemma CoverTitles(step: (Cursor, Message) -> Cursor, g: DateGroups, ds: seq<string>)
    requires forall k :: 0 <= k < |ds| ==> ds[k] in g.byDate
    ensures var bs := [Bookmark(CoverTitle, 0)] + RunDates(step, g, ds).bookmarks;
      bs[0] == Bookmark(CoverTitle, 0) && |bs| == |ds| + 1 &&
      forall k :: 0 <= k < |ds| ==> bs[k + 1].title == BookmarkTitle(ds[k], |g.byDate[ds[k]]|)
  {
    RunDatesTitles(step, g, ds);
    CoverShift(RunDates(step, g, ds).bookmarks);
  }

  /** The cover goes in front of the date bookmarks. */
  lemma CoverShift(bs: seq<Bookmark>)
    ensures var all := [Bookmark(CoverTitle, 0)] + bs;
      |all| == |bs| + 1 && all[0] == Bookmark(CoverTitle, 0) &&
      forall k :: 0 <= k < |bs| ==> all[k + 1] == bs[k]
  {
  }

  /** Bookmark pages never decrease, and every one names a page the tracker
      recorded. */
  lemma BookmarkPages(env: FontEnv, table: Shortcodes.ShortcodeTable, media: MediaEnv, clock: Clock, chats: seq<Message>)
    requires Compose(env, table, media, clock, chats).Some?
    ensures var doc := Compose(env, table, media, clock, chats).value;
      (forall i, j :: 0 <= i < j < |doc.bookmarks| ==> doc.bookmarks[i].page <= doc.bookmarks[j].page) &&
      (forall k :: 0 <= k < |doc.bookmarks| ==> doc.bookmarks[k].page < doc.pageCount)
  {
    StepOfForward(env, table, media);
    var p := RunDates(StepOf(env, table, media), Groups(clock, chats), Dates(clock, chats));
    RunDatesPages(StepOf(env, table, media), Groups(clock, chats), Dates(clock, chats));
    CoverFirst(p.bookmarks, p.cursor.page);
  }

  /** Every bookmark points at or before the last page with a message on it,
      and that page is one the tracker recorded, so a file holding that page
      holds every bookmarked page. */
  lemma BookmarksBeforeLastPage(env: FontEnv, table: Shortcodes.ShortcodeTable, media: MediaEnv, clock: Clock, chats: seq<Message>)
    requires Compose(env, table, media, clock, chats).Some?
    ensures var doc := Compose(env, table, media, clock, chats).value;
      var last := LastPage(env, table, media, clock, chats);
      last < doc.pageCount &&
      forall k :: 0 <= k < |doc.bookmarks| ==> doc.bookmarks[k].page <= last
  {
    var step := StepOf(env, table, media);
    var g := Groups(clock, chats);
    var ds := Dates(clock, chats);
    LastDateHasMessages(clock, chats);
    DrawnOnBetween(env, table, media);
    CoverBeforeLast(step, DrawnOf(env, table, media), g, ds);
    var p := RunDates(step, g, ds);
    assert Compose(env, table, media, clock, chats).value == Document([Bookmark(CoverTitle, 0)] + p.bookmarks, p.cursor.page + 1);
  }

  /** The sorted dates are not empty when some message is dated, and the
      last of them has a message. */
  lemma LastDateHasMessages(clock: Clock, chats: seq<Message>)
    requires Groups(clock, chats).dates != []
    ensures var ds := Dates(clock, chats);
      ds != [] && Groups(clock, chats).byDate[ds[|ds| - 1]] != []
  {
    var s := SortChats(clock, chats);
    var g := Groups(clock, chats);
    SortedDatesCorrect(clock, s);
    GroupedCorrect(clock, s);
    assert g.dates[0] in g.byDate;
  }

  /** A message is drawn on the cursor's page or later, and the composer's step
      ends on that page or later. */
  lemma DrawnOnBetween(env: FontEnv, table: Shortcodes.ShortcodeTable, media: MediaEnv)
    ensures forall c: Cursor, m: Message :: c.page <= DrawnOf(env, table, media)(c, m) <= StepOf(env, table, media)(c, m).page
  {
  }

  /** The cover and the date bookmarks all point at or before the page of the
      last message, which is not past the page the cursor ends on. */
  lemma CoverBeforeLast(step: (Cursor, Message) -> Cursor, at: (Cursor, Message) -> nat, g: DateGroups, ds: seq<string>)
    requires forall c: Cursor, m: Message :: c.page <= at(c, m) <= step(c, m).page
    requires forall k :: 0 <= k < |ds| ==> ds[k] in g.byDate
    requires ds != [] && g.byDate[ds[|ds| - 1]] != []
    ensures var p := RunDates(step, g, ds);
      var bs := [Bookmark(CoverTitle, 0)] + p.bookmarks;
      var last := LastDrawn(step, at, g, ds);
      last < p.cursor.page + 1 && forall k :: 0 <= k < |bs| ==> bs[k].page <= last
  {
    RunDatesLastDrawn(step, at, g, ds);
    LastDrawnBelow(step, at, g, ds);
    CoverShift(RunDates(step, g, ds).bookmarks);
  }

  /** Putting the cover bookmark (page 0) in front keeps the pages in order
      and bounded. */
  lemma CoverFirst(bs: seq<Bookmark>, last: nat)
    requires forall i, j :: 0 <= i < j < |bs| ==> bs[i].page <= bs[j].page
    requires forall k :: 0 <= k < |bs| ==> bs[k].page <= last
    ensures var all := [Bookmark(CoverTitle, 0)] + bs;
      (forall i, j :: 0 <= i < j < |all| ==> all[i].page <= all[j].page) &&
      (forall k :: 0 <= k < |all| ==> all[k].page < last + 1)
  {
    var all := [Bookmark(CoverTitle, 0)] + bs;
    assert forall k :: 0 < k < |all| ==> all[k] == bs[k - 1];
  }

  /** The messages drawn, date by date. */
  function DrawnCount(g: DateGroups, ds: seq<string>): nat
    requires forall k :: 0 <= k < |ds| ==> ds[k] in g.byDate
  {
    if ds == [] then 0 else DrawnCount(g, ds[..|ds| - 1]) + |g.byDate[ds[|ds| - 1]]|
  }

  lemma {:induction false} DrawnIsDateSum(clock: Clock, s: seq<Message>, ds: seq<string>)
    requires forall k :: 0 <= k < |ds| ==> ds[k] in Grouped(clock, s).byDate
    ensures DrawnCount(Grouped(clock, s), ds) == DateSum(clock, s, ds)
    decreases |ds|
  {
    if ds != [] {
      GroupedCorrect(clock, s);
      DrawnIsDateSum(clock, s, ds[..|ds| - 1]);
    }
  }

  /** A dated message is in the list of its date. */
  lemma {:induction false} OnDateHas(clock: Clock, s: seq<Message>, k: nat)
    requires k < |s| && DateOf(clock, s[k]).Some?
    ensures s[k] in OnDate(clock, s, DateOf(clock, s[k]).value)
    decreases |s|
  {
    if k < |s| - 1 {
      OnDateHas(clock, s[..|s| - 1], k);
    }
  }

  /** Every dated message is drawn exactly once: the date lists together hold
      as many messages as there are dated messages. */
  lemma DrawnTotal(clock: Clock, chats: seq<Message>)
    ensures DrawnCount(Groups(clock, chats), Dates(clock, chats)) == |Dated(clock, SortChats(clock, chats))|
  {
    var s := SortChats(clock, chats);
    var ds := Dates(clock, chats);
    SortedDatesCorrect(clock, s);
    forall i, j | 0 <= i < j < |ds|
      ensures ds[i] != ds[j]
    {
      BelowIrreflexive(ds[i]);
    }
    forall k | 0 <= k < |s| && DateOf(clock, s[k]).Some?
      ensures DateOf(clock, s[k]).value in ds
    {
      OnDateHas(clock, s, k);
    }
    DateSumTotal(clock, s, ds);
    DrawnIsDateSum(clock, s, ds);
  }
}
