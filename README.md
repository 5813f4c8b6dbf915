# WeChat transcript to PDF: layout and pagination, modelled in Dafny

`export2pdf_0424.py` turns an exported WeChat chat transcript (a JSON list of
messages) into an A4 PDF. The model covers the parts of it that decide what
ends up where:

- `Emoji`: how code points are classified and how the wrapper cuts text into
  emoji clusters.
- `Width`: the text-width measurement `get_string_width`, with its memo table
  (a class whose table the measuring method updates).
- `Wrap`: the line wrapper `wrap_text`. It is a greedy reference definition
  over clusters, and the method with the source's loop is proved equal to it.
- `Shortcodes`: the `EMOJI_MAP` pass that replaces `[微笑]`-style codes. The
  full 208-entry table is included. `Layout` and `Composer` take the table as a
  parameter (any table without an empty key), and `GeneratePdf` passes
  `EMOJI_MAP`, as `EmojiTable`; every layout property holds for any
  such table.
- `Decimal`, `Media`: the small formatting helpers. These are the voice-length
  label, the file display name, the picture fit and the media cache file name.
- `Transcript`, `Sorting`, `Chats`: the message record and the two sort
  attempts on `CreateTime`, then the grouping of messages by date and the
  sorted dates.
- `Pages`: the `PageTracker` canvas subclass, as a class.
- `Layout`: the vertical geometry of `draw_message`, in millimetres. Its
  break test keeps text and image bubbles on the page. It does not do so for
  a video whose thumbnail fills the full 80 mm, because the 72 mm reserve is
  smaller than the 97 mm bubble; `VideoBubbleMayLeavePage` states this.
- `Composer`: `generate_pdf`'s loop over dates and messages. It records the
  bookmarks and breaks pages.
- `Outline`: the final pass that turns bookmarks into PDF outline entries.

The font engine, the clock, image decoding, downloads and transcription are
not modelled; what they contribute is passed in as parameters:

- `FontEnv` gives the canvas's `stringWidth` and the set of registered fonts.
- `Clock` stands for `int()`/`fromtimestamp`/`strptime`, giving a time-line
  position and a `%Y-%m-%d` date.
- `MediaEnv` gives the pixel size of a fetched picture or thumbnail, whether
  a sticker could be drawn, the transcript and probed length of a voice clip,
  the cached copy of a file, and whether and where drawing a message raises.

Each lookup in `MediaEnv` answers "nothing" for an empty source path, as
`download_media_file` does. `enable_speech_to_text=False` is the
`MediaEnv` whose voice lookup always answers `None`.

Heights and y positions are `real` millimetres from the bottom of the page.
Text widths are `real` points. Python floats are exact reals here.

## Model

| member | source | states |
|---|---|---|
| Emoji.ClusterLength | export2pdf_0424.py:904-944 | the length of the cluster starting at i, as the source's nested scanning loops compute it, equals the reference cluster end: the longest run of modifiers, and of chainable code points reached through a joiner; it is at least 1 and stays inside the text |
| Emoji.ClusterEnd | export2pdf_0424.py:910-944 | only an emoji base absorbs anything; everything absorbed is a modifier or joiner-chained; the scan stops at the first code point it may not absorb |
| Emoji.RunEndUnique | export2pdf_0424.py:921-943 | the end of the absorbed run is the unique position such that everything before it is absorbable and the code point at it is not |
| Emoji.ClustersConcat | export2pdf_0424.py:904-968 | the clusters, concatenated, give back the text from the start position |
| Emoji.ClustersShape | export2pdf_0424.py:904-968 | every cluster is the slice of the text from one cluster start to its cluster end |
| Emoji.ConcatAppend | export2pdf_0424.py:946-947 | joining pieces distributes over concatenation |
| Emoji.ConcatNonEmpty | export2pdf_0424.py:946-972 | non-empty pieces join to a text at least as long as their number, and empty only when there are none |
| Width.WidthCache.Measure | export2pdf_0424.py:781-882 | a memo hit returns the stored width; otherwise it measures with the emoji scan, then the per-character sum or the whole-string measurement, and stores the result; the result always equals StringWidth, and every stored entry stays equal to the width it records |
| Width.WidthCache.constructor | export2pdf_0424.py:427 | the memo starts empty, for a given font environment, and is valid |
| Width.SumWidthAppend | export2pdf_0424.py:814-859 | the per-character sum of a concatenation is the sum of the parts |
| Width.SumWidthIgnoresModifiers | export2pdf_0424.py:828-835 | selectors, skin tones and joiners contribute nothing: removing them leaves the per-character width unchanged |
| Width.SumWidthOfModifiers | export2pdf_0424.py:828-835 | a run made only of modifiers has width zero |
| Width.ModifiedEmojiWidth | export2pdf_0424.py:814-849 | an emoji followed by modifiers is exactly as wide as its base, measured in EmojiFont when registered, else the requested font, else Helvetica |
| Width.FastPath | export2pdf_0424.py:801-868 | text without emoji-range code points is measured in one call on the whole string, in the requested font, or Helvetica when that is not registered |
| Width.WithoutModifiers | export2pdf_0424.py:828-835 | dropping modifiers never lengthens the text |
| Wrap.WrapRoundTrip | export2pdf_0424.py:885-974 | an empty text wraps to no lines and any other text to at least one; the lines concatenate back to the text; no line is empty |
| Wrap.WrapKeepsClusters | export2pdf_0424.py:904-968 | every line is a run of whole clusters: the lines' clusters, flattened, are the clusters of the text, so no emoji sequence is split |
| Wrap.WrapWidthBound | export2pdf_0424.py:950-965 | every line's width is within the bound, unless the line is a single cluster that is itself wider than the bound |
| Wrap.WrapGreedy | export2pdf_0424.py:950-965 | each line break happens only where the next cluster did not fit: the earlier line, or that line extended by the next line's first cluster, is wider than the bound |
| Wrap.ScanIsWrap | export2pdf_0424.py:900-974 | the source's single left-to-right scan (current line, test line, flush) produces exactly the greedy reference wrap |
| Wrap.WrapText | export2pdf_0424.py:885-974 | the method, measuring through the memo, returns exactly the reference wrap of the text in the requested font and size, and leaves the memo valid |
| Wrap.ScanStep | export2pdf_0424.py:904-968 | the unit the scan cuts at i ends at the cluster end, and committing it with Next leaves the rest of the scan over the remaining clusters with the same outcome |
| Wrap.WrapStep | export2pdf_0424.py:904-965 | one iteration of the loop, measuring through the memo, moves i to the cluster end and commits the unit: to the current line when the test line fits, else the current line (when not empty) is emitted and the unit becomes a line of its own when wider than the bound by itself, or starts the new current line |
| Shortcodes.ReplaceAbsent | export2pdf_0424.py:1545-1546 | str.replace (left to right, non-overlapping, for a non-empty pattern): replacing a pattern that does not occur leaves the text unchanged |
| Shortcodes.ReplaceSame | export2pdf_0424.py:1546 | replacing a pattern with itself leaves the text unchanged |
| Shortcodes.ReplaceLength | export2pdf_0424.py:1546 | the result's length is the text's length plus, per occurrence, the length difference of replacement and pattern |
| Shortcodes.ReplaceRemoves | export2pdf_0424.py:1546 | when the replacement shares no code point with the pattern, the pattern no longer occurs afterwards |
| Shortcodes.PrefixKept | export2pdf_0424.py:1546 | a prefix of the output made of code points the replacement never produces was already a prefix of the input |
| Shortcodes.Expand | export2pdf_0424.py:1541-1547 | the table pass counts at most one replacement per table entry |
| Shortcodes.ExpandShortcodes | export2pdf_0424.py:1541-1547 | the loop over the table (EMOJI_MAP in `generate_pdf`) in insertion order returns the text and the count of the entries that occurred, as the reference pass defines them |
| Shortcodes.ExpandPlain | export2pdf_0424.py:1541-1547 | for a table whose keys all start with '[', a text without '[' passes unchanged with count 0 |
| Shortcodes.ExpandRemovesLast | export2pdf_0424.py:1544-1547 | the last entry's code no longer occurs after the pass when its emoji shares no code point with it |
| Shortcodes.EmojiMapPlain | export2pdf_0424.py:188-424 | with the real 208-entry EMOJI_MAP, a text without '[' is unchanged and counts no replacement |
| Shortcodes.ShortcodeTablePlain | export2pdf_0424.py:188-424 | any table of bracketed codes leaves bracket-free text alone |
| Decimal.NatToString | export2pdf_0424.py:2179 | "{n}" of a natural number is a non-empty digit string without a leading zero |
| Decimal.NatToStringRoundTrip | export2pdf_0424.py:2179 | reading the numeral back gives the number |
| Decimal.DigitsRoundTrip | export2pdf_0424.py:2098 | canonical digit strings are exactly the numerals "{n}" writes |
| Decimal.IntToString | export2pdf_0424.py:1399 | "{m}" of an integer starts with '-' exactly for negatives, followed by digits |
| Decimal.Pad2 | export2pdf_0424.py:1399 | "{s:02d}" for s < 100 is two digits that read back as s |
| Media.FormatVoiceMessage | export2pdf_0424.py:1384-1402 | without a usable length the label is "语音" |
| Media.VoiceLabelRoundTrip | export2pdf_0424.py:1384-1399 | the label "m:ss" of a length reads back as the length truncated to whole seconds |
| Media.ClockRoundTrip | export2pdf_0424.py:1397-1399 | minutes and zero-padded seconds under 60 read back as m*60+s |
| Media.ClockParts | export2pdf_0424.py:1399 | the label splits at its only ':' into the minutes and the zero-padded seconds |
| Media.VoiceFallbackUnparsed | export2pdf_0424.py:1393-1402 | the fallback label is never mistaken for a length |
| Media.Trunc | export2pdf_0424.py:1397-1398 | int() truncates toward zero, for negative lengths as well |
| Media.IndexOf | export2pdf_0424.py:1399 | the first position of a character, or the length when it is absent |
| Media.Basename | export2pdf_0424.py:1956-1958 | os.path.basename: the longest suffix without '/', preceded by '/' when shorter than the path |
| Media.FileDisplayName | export2pdf_0424.py:1953-1960 | the message text unless it is empty or "文件"; else the base name of the source path; else "未知文件" when no cached copy exists |
| Media.ImageFit | export2pdf_0424.py:1752-1757 | a picture is drawn exactly when both sides are positive, since a zero side raises; then it fits both bounds, touches one of them, and keeps its aspect ratio |
| Media.FitScale | export2pdf_0424.py:1752-1757 | scaling both sides by the smaller ratio keeps the proportions, fits both bounds and reaches one of them |
| Media.CachePathInjective | export2pdf_0424.py:1450-1452 | within one media type, different ids never share a cache file |
| Media.CachePathTypesDisjoint | export2pdf_0424.py:1451-1452 | files of different known media types never collide, whatever their ids |
| Transcript.ParseTimestamp | export2pdf_0424.py:631-640 | falsy timestamps are not parsed |
| Transcript.PrimaryKey | export2pdf_0424.py:2098 | the first sort key exists exactly for a missing or string CreateTime, because a number has no isdigit; it is never negative |
| Sorting.Insert | export2pdf_0424.py:2098 | insertion adds exactly one element |
| Sorting.SortBy | export2pdf_0424.py:2098 | sorting permutes the list |
| Sorting.InsertSorted | export2pdf_0424.py:2098 | insertion keeps a list sorted |
| Sorting.InsertWithKey | export2pdf_0424.py:2098 | inserting into a sorted list puts the new element in front of the elements with its key, leaving the others in order; since the sort inserts each element into the sorted rest of the list, this is what makes it stable |
| Sorting.SortByCorrect | export2pdf_0424.py:2098 | list.sort with a key: the result is sorted by the key, is a permutation, and is stable (the elements with each key keep their input order) |
| Sorting.BelowIrreflexive | export2pdf_0424.py:2168 | str < is irreflexive |
| Sorting.BelowTransitive | export2pdf_0424.py:2168 | str < is transitive |
| Sorting.BelowTotal | export2pdf_0424.py:2168 | str < is total on distinct strings |
| Sorting.InsertStringAscending | export2pdf_0424.py:2168 | inserting a new string keeps a strictly ascending list ascending |
| Sorting.SortStringsCorrect | export2pdf_0424.py:2168 | sorted() of distinct strings is strictly ascending and a permutation |
| Chats.SortChatsCorrect | export2pdf_0424.py:2096-2106 | the transcript is sorted stably by the numeric key when every CreateTime is a string or missing, otherwise by the parsed time, with 1970-01-01 for unparsable values; the result is a permutation |
| Chats.GroupByDate | export2pdf_0424.py:2108-2114 | the setdefault/append loop builds exactly the reference grouping |
| Chats.GroupedCorrect | export2pdf_0424.py:2108-2114 | a date is a key exactly when some message with a truthy CreateTime parses to it; its list holds exactly the messages of that date in order; keys are listed once each, and other messages are dropped |
| Chats.DatesPrefix | export2pdf_0424.py:2108-2114 | the keys collected from a prefix of the transcript are a prefix of the keys collected from all of it |
| Chats.GroupedFirstSeen | export2pdf_0424.py:2108-2114 | keys are listed in first-seen order: in any prefix of the transcript in which a key has been seen, every key listed before it has been seen too |
| Chats.DateSumStep | export2pdf_0424.py:2108-2114 | each further message adds one to exactly the group of its date |
| Chats.DateSumTotal | export2pdf_0424.py:2172 | summed over the dates, the group sizes equal the number of dated messages |
| Chats.SortedDatesCorrect | export2pdf_0424.py:2168 | the sorted dates are strictly ascending and are exactly the dates that have messages |
| Pages.PageTracker.ShowPage | export2pdf_0424.py:2131-2135 | showPage records the finished page with its number and size, counts one more break, and advances the canvas counter |
| Pages.PageTracker.Save | export2pdf_0424.py:2137-2140 | save records the last page and changes no counter |
| Pages.PageTracker.GetPageNumber | export2pdf_0424.py:2142-2143 | getPageNumber is the number of breaks so far, which is the number of recorded pages and the 0-based number of the page being drawn |
| Pages.PageTracker.constructor | export2pdf_0424.py:2126-2129 | a new tracker has no records and a break count of zero |
| Layout.DrawBreakRule | export2pdf_0424.py:1526-1587 | a non-notice message starts a new page exactly when y minus its reserve is below the 10 mm margin; a notice does so exactly when y is below 20 mm. The reserve is max(bubble, 10 mm) + 12 mm for text, 92 mm for pictures, 72 mm for videos and stickers, 40 mm otherwise |
| Layout.DrawAdvance | export2pdf_0424.py:1585-1595 | an undisturbed message returns y (267 mm after a break) minus 5 mm for the timestamp, minus max(bubble, 10 mm), minus 8 mm |
| Layout.DrawFault | export2pdf_0424.py:2006-2010 | when drawing raises, the result is 5 mm below the position reached when it happened |
| Layout.NoticePlacement | export2pdf_0424.py:1526-1532 | a system notice breaks the page exactly when less than 20 mm is left, unless the failure comes first; it then moves 10 mm down, or 5 mm on a failure |
| Layout.BubblePlacement | export2pdf_0424.py:1585-1595 | any other message breaks exactly when its reserve does not fit above the 10 mm margin, unless the failure comes first; it moves down by the stamp, the bubble (at least the avatar) and the gap, or 5 mm below where the failure happened |
| Layout.DrawPlacement | export2pdf_0424.py:1508-2010 | draw_message places a notice, or a bubble of the message's reserve and height, by the two rules above |
| Layout.VideoBubbleMayLeavePage | export2pdf_0424.py:1835-1850 | unlike an image, a video is not kept on the page: a thumbnail fitted to the full 80 mm makes a 97 mm bubble while the break test (line 1577) reserves only 72 mm, so from a start between 82 mm and 102 mm the bubble is drawn without a break and ends below the page's bottom edge |
| Layout.PictureOrHeight | export2pdf_0424.py:1752-1795 | a picture bubble is at most 80 mm plus its margin, and its fallback wraps to at most one line per code point of the fallback word |
| Layout.DrawDescends | export2pdf_0424.py:1508-2010 | every message moves the cursor down by at least 5 mm from where it started, or from the top of the new page after a break |
| Layout.TextBubbleClearsMargin | export2pdf_0424.py:1568-1595 | a text bubble that did not force a break ends at least 7 mm above the bottom margin |
| Layout.ImageBubbleOnPage | export2pdf_0424.py:1745-1780 | an image bubble that did not force a break under the 92 mm reserve (lines 1574-1575) stays at least 5 mm above the bottom edge |
| Layout.TextBubbleShows | export2pdf_0424.py:1569 | a text bubble shows "[空消息]" when the processed text is empty, and otherwise the processed text split into non-empty lines |
| Layout.LabelledBubblesShow | export2pdf_0424.py:1800-1986 | the voice, file and other bubbles are never empty, so their `or [...]` fallbacks never apply and they show exactly their text |
| Layout.FileWithoutSource | export2pdf_0424.py:1953-1962 | a file message with no usable text and no source path shows "[文件] 未知文件" |
| Layout.WrapLinesOneUnit | export2pdf_0424.py:1777-1931 | a fallback word wraps to at most as many lines as it has code points |
| Layout.MaxWidthIsMax | export2pdf_0424.py:1570-1571 | the widest line: no line is wider, and some line is exactly that wide |
| Layout.MaxWidthStep | export2pdf_0424.py:1570-1571 | the widest of one more line is the larger of the new line's width and the earlier maximum |
| Layout.Widen | export2pdf_0424.py:1570-1571 | one step of max(...): the memoised width of the line replaces the maximum when it is larger |
| Layout.MeasureBubble | export2pdf_0424.py:1570-1571 | the bubble width is min(cap, widest line) + 6 mm, measured through the memo |
| Layout.TextBubble | export2pdf_0424.py:1569 | `wrap_text(...) or [fallback]`: the lines are the wrap of the text, or the fallback when the wrap is empty |
| Layout.PictureBubble | export2pdf_0424.py:1746-1795 | a fitted picture gives a bubble 12 mm taller than itself (17 mm for a video); otherwise the fallback word is wrapped |
| Layout.DrawBody | export2pdf_0424.py:1624-2004 | each branch produces the bubble the reference layout assigns to the message kind |
| Layout.MeasureReserve | export2pdf_0424.py:1539-1583 | the page-break reserve computed as the source does, including the shortcode pass, the wrap and the measurement for text |
| Layout.DrawMessage | export2pdf_0424.py:1508-2010 | draw_message returns the reference position, and it finishes exactly one page when the reference layout breaks and none otherwise |
| Composer.BookmarkTitle | export2pdf_0424.py:2179 | "{date} ({n}条)" starts with the date and ends with "条)" |
| Composer.BookmarkTitleCount | export2pdf_0424.py:2179 | the count can be read back from the title |
| Composer.DrawDay | export2pdf_0424.py:2186-2195 | the inner loop draws each message and breaks the page, resuming at 262 mm, when a message ended below 10 mm, exactly as the reference run does |
| Composer.DrawDates | export2pdf_0424.py:2174-2195 | the outer loop records a bookmark at the current page for each date before drawing its messages, exactly as the reference run does |
| Composer.DrawAndBreak | export2pdf_0424.py:2189-2195 | one message of the inner loop moves the cursor and the tracker's page exactly as the composer's step does |
| Composer.RunMessagesStep | export2pdf_0424.py:2186-2195 | the run over one more message is the step applied to where the earlier ones left the cursor |
| Composer.GeneratePdf | export2pdf_0424.py:2072-2198 | generate_pdf returns early for an empty transcript or one with no dated message, and otherwise composes the reference document and saves it |
| Composer.AdvanceInBand | export2pdf_0424.py:2189-2195 | after each message the cursor is between 10 mm and 262 mm, and the page count grows by at most two |
| Composer.RunMessagesInBand | export2pdf_0424.py:2186-2195 | a date's messages keep the cursor between 10 mm and 267 mm |
| Composer.RunMessagesForward | export2pdf_0424.py:2186-2195 | pages never decrease |
| Composer.StepOfForward | export2pdf_0424.py:2189-2195 | the composer's step never moves back a page |
| Composer.StepOfInBand | export2pdf_0424.py:2189-2195 | the composer's step keeps the cursor between 10 mm and 267 mm |
| Composer.DocumentInBand | export2pdf_0424.py:2174-2195 | through the whole document the cursor stays between 10 mm and 267 mm |
| Composer.RunDatesInBand | export2pdf_0424.py:2174-2195 | across dates the cursor stays between 10 mm and 267 mm |
| Composer.RunDatesTitles | export2pdf_0424.py:2174-2181 | one bookmark per date, titled with the date and its message count |
| Composer.RunDatesPages | export2pdf_0424.py:2176-2181 | bookmark pages never decrease and none is past the page being drawn |
| Composer.ComposeNone | export2pdf_0424.py:2072-2118 | there is no document exactly when the transcript is empty or has no dated message |
| Composer.BookmarkShape | export2pdf_0424.py:2160-2181 | the bookmarks start with ("微信聊天记录", 0), then come one per date with messages, in ascending date order, titled with the date and its message count |
| Composer.CoverTitles | export2pdf_0424.py:2160-2181 | behind the cover bookmark at index 0 there is one bookmark per date, the k-th titled with the k-th date and its message count |
| Composer.CoverShift | export2pdf_0424.py:2163-2165 | putting the cover in front shifts every date bookmark by one place |
| Composer.BookmarkPages | export2pdf_0424.py:2176-2198 | bookmark pages never decrease, and each is a page the tracker recorded |
| Composer.LastDrawnBelow | export2pdf_0424.py:2186-2195 | the page the last message is drawn on is not past the page the cursor ends on |
| Composer.RunDatesLastDrawn | export2pdf_0424.py:2174-2195 | when the last date has a message, every date bookmark points at or before the page that message is drawn on |
| Composer.DrawnOnBetween | export2pdf_0424.py:2189-2195 | a message is drawn on the cursor's page or, after draw_message's own break, the next one; the composer's step ends on that page or later |
| Composer.LastDateHasMessages | export2pdf_0424.py:2168 | when some message is dated, the sorted dates are not empty and the last of them has a message |
| Composer.CoverBeforeLast | export2pdf_0424.py:2165-2195 | the cover and every date bookmark point at or before the page of the last message, which is not past the page the cursor ends on |
| Composer.BookmarksBeforeLastPage | export2pdf_0424.py:2165-2198 | every bookmark points at or before the last page with a message on it (before the composer's own break, which leaves an empty page), and that page is one the tracker counts |
| Composer.CoverFirst | export2pdf_0424.py:2163-2181 | the cover on page 0 in front of ordered, bounded bookmark pages keeps them ordered and within the page count |
| Composer.DrawnTotal | export2pdf_0424.py:2172 | the date lists together hold exactly as many messages as there are dated messages |
| Composer.DrawnIsDateSum | export2pdf_0424.py:2172 | the drawn count is the sum of the size of each date's group |
| Composer.OnDateHas | export2pdf_0424.py:2108-2114 | a dated message lies in its date's list |
| Outline.AttachOutline | export2pdf_0424.py:2257-2272 | the loop outputs the admitted bookmarks, and bookmark_count equals the number of entries added |
| Outline.EntriesMembers | export2pdf_0424.py:2259-2272 | the entries are exactly the bookmarks whose page exists and whose insertion did not raise |
| Outline.EntriesAppend | export2pdf_0424.py:2259-2272 | the entries keep bookmark order |
| Outline.EntriesAll | export2pdf_0424.py:2259-2272 | when every bookmark is admitted, the outline is the bookmark list itself, all at top level |
| Outline.DocumentOutline | export2pdf_0424.py:2259-2272 | for a composed document whose file holds at least the last page with a message on it, and where no insertion fails, the outline is the whole bookmark list |

## Left out

- Font registration and download, the avatar threads and downloads, image compression and decoding, ffmpeg probing, FunASR transcription, opencc, MD5, and every drawing call are not modelled. Their effect arrives as `FontEnv` and `MediaEnv` parameters, so the model does not check their own behaviour.
- The x positions, colours and fonts of what is drawn are not modelled; the model keeps only what decides vertical placement and page breaks.
- `Width.Measure`: the last-resort estimate `len(text) * size * 0.6` is not modelled, because Helvetica, a standard reportlab font, is always available; so the estimate never applies. The trailing `setFont` call is not modelled either, reportlab state being outside the model.
- `Transcript.ParseTimestamp`: the int/fromtimestamp/strptime chain and its cache are not modelled; they are the abstract `Clock.parse`. An OverflowError from `fromtimestamp` would escape `parse_timestamp`. The model has no such case, because it would stop the whole run.
- `Chats.SortChatsCorrect`: when the fallback sort itself raises, the list is left as it was. The model does not have that case, since its abstract parse never raises. The fallback key's datetime comparison is modelled as an integer order.
- `Transcript.PrimaryKey`: `str.isdigit` also accepts non-ASCII digits, and the model accepts ASCII digits only. So a CreateTime such as "²" passes `isdigit` in the source, `int()` raises, and the source takes the fallback sort; a CreateTime such as "١٢" sorts with key 12 there. The model gives both key 0 and stays with the primary sort. `Chats.SortChatsCorrect` inherits this, and so do `Decimal.IntToString` and `Decimal.DigitsValue`, which read and write ASCII digits only.
- `Media.Basename`: this is the POSIX `os.path.basename`; the Windows form, which also splits at '\', is not modelled.
- `Pages.PageTracker.Save`: reportlab's `save` also calls `showPage` when the last page has drawing on it, and that call reaches the tracker's override. The model keeps only the tracker's own code and records the last page once.
- `Layout.DrawMessage`: a `type_name` or `msg` that is JSON null (Python `None`) is not modelled: the record's fields are strings or missing.
- `Layout.DrawMessage`: where an exception is raised is passed in as `MediaEnv.fault`. The three stages are before the break test, after it, and after the timestamp; an exception inside a branch catches it at the last stage. Exceptions caught inside a branch, such as a picture that fails to open, are part of the picture lookup.
- `Layout.DrawMessage`: users, sender names and `is_self` only decide horizontal placement and are not modelled.
- `Outline.DocumentOutline`: how many pages reportlab writes is not modelled, in particular whether the empty page left by the composer's last break reaches the file. The lemma only requires that the file holds the last page with a message on it.
- The file copy, the temporary-file swap and the sleeps around the outline pass are not modelled; the page count of the re-read PDF is a parameter of `Outline.AttachOutline`.
- Logging, progress bars and argument parsing are not modelled.
- `Composer.GeneratePdf`: the title lines on the first page, and `users`/`is_self` preparation, do not affect positions and are left out.
