/** The outline pass: after the document is written, every bookmark whose page
    exists in the file becomes a top-level outline entry. Reading and writing
    the file is outside the model: the page count the reader reports is a
    parameter, and `rejects` says for which bookmarks adding the entry raises
    (the failure is reported and the bookmark skipped). */
module Outline {
  import opened Composer
  import Width
  import Layout
  import Transcript
  import Shortcodes

  /** Whether a bookmark becomes an outline entry. */
  predicate Admitted(b: Bookmark, pageCount: nat, rejects: Bookmark -> bool) {
    b.page < pageCount && !rejects(b)
  }

  /** The entries the pass adds, in bookmark order; all have no parent. */
  function Entries(bookmarks: seq<Bookmark>, pageCount: nat, rejects: Bookmark -> bool): seq<Bookmark> {
    if bookmarks == [] then []
    else
      var b := bookmarks[|bookmarks| - 1];
      Entries(bookmarks[..|bookmarks| - 1], pageCount, rejects) + (if Admitted(b, pageCount, rejects) then [b] else [])
  }

  /** The loop over the bookmarks, counting the entries added. */
  method AttachOutline(bookmarks: seq<Bookmark>, pageCount: nat, rejects: Bookmark -> bool)
    returns (outline: seq<Bookmark>, count: nat)
    ensures outline == Entries(bookmarks, pageCount, rejects)
    ensures count == |outline|
  {
    outline := [];
    count := 0;
    for i := 0 to |bookmarks|
      invariant outline == Entries(bookmarks[..i], pageCount, rejects)
      invariant count == |outline|
    {
      assert bookmarks[..i + 1][..i] == bookmarks[..i];
      var b := bookmarks[i];
      if b.page < pageCount {
        if !rejects(b) {
          outline := outline + [b];
          count := count + 1;
        }
      }
    }
    assert bookmarks[..|bookmarks|] == bookmarks;
  }

  /** The entries are exactly the admitted bookmarks. */
  lemma {:induction false} EntriesMembers(bookmarks: seq<Bookmark>, pageCount: nat, rejects: Bookmark -> bool)
    ensures forall b :: b in Entries(bookmarks, pageCount, rejects) <==>
      b in bookmarks && Admitted(b, pageCount, rejects)
    decreases |bookmarks|
  {
    if bookmarks != [] {
      var front := bookmarks[..|bookmarks| - 1];
      EntriesMembers(front, pageCount, rejects);
      assert bookmarks == front + [bookmarks[|bookmarks| - 1]];
    }
  }

  /** The pass keeps the bookmark order: the entries of two runs of bookmarks
      are the entries of the first followed by those of the second. */
  lemma {:induction false} EntriesAppend(a: seq<Bookmark>, b: seq<Bookmark>, pageCount: nat, rejects: Bookmark -> bool)
    ensures Entries(a + b, pageCount, rejects) == Entries(a, pageCount, rejects) + Entries(b, pageCount, rejects)
    decreases |b|
  {
    if b == [] {
      assert a + b == a;
    } else {
      var b' := b[..|b| - 1];
      assert (a + b)[..|a + b| - 1] == a + b';
      assert (a + b)[|a + b| - 1] == b[|b| - 1];
      EntriesAppend(a, b', pageCount, rejects);
    }
  }

  /** When every bookmark is admitted, the outline is the bookmark list itself. */
  lemma {:induction false} EntriesAll(bookmarks: seq<Bookmark>, pageCount: nat, rejects: Bookmark -> bool)
    requires forall k :: 0 <= k < |bookmarks| ==> Admitted(bookmarks[k], pageCount, rejects)
    ensures Entries(bookmarks, pageCount, rejects) == bookmarks
    decreases |bookmarks|
  {
    if bookmarks != [] {
      var front := bookmarks[..|bookmarks| - 1];
      EntriesAll(front, pageCount, rejects);
      assert bookmarks == front + [bookmarks[|bookmarks| - 1]];
    }
  }

  /** A composed document whose file holds the last page with a message on
      it, and where no entry fails, gets its whole bookmark list as the
      outline: the cover and one entry per date. */
  lemma DocumentOutline(env: Width.FontEnv, table: Shortcodes.ShortcodeTable, media: Layout.MediaEnv, clock: Transcript.Clock,
                        chats: seq<Transcript.Message>, pageCount: nat)
    requires Compose(env, table, media, clock, chats).Some?
    requires pageCount > LastPage(env, table, media, clock, chats)
    ensures var doc := Compose(env, table, media, clock, chats).value;
      Entries(doc.bookmarks, pageCount, _ => false) == doc.bookmarks
  {
    var doc := Compose(env, table, media, clock, chats).value;
    BookmarksBeforeLastPage(env, table, media, clock, chats);
    EntriesAll(doc.bookmarks, pageCount, _ => false);
  }
}
