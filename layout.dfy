/** draw_message: the vertical layout of one message. Heights and y positions
    are in millimetres measured up from the bottom edge of an A4 page; text
    widths are in points, as the font metric gives them. The pictures, the
    downloads, transcription, the drawing calls and the horizontal placement
    are outside the model; what they contribute to the layout arrives through
    a MediaEnv. */
module Layout {
  import opened Wrappers
  import opened Emoji
  import opened Width
  import opened Wrap
  import opened Shortcodes
  import opened Media
  import opened Transcript
  import opened Pages

  // ---------------------------------------------------------------------------
  // Constants
  // ---------------------------------------------------------------------------

  const PageHeight: real := 297.0
  const TopMargin: real := 30.0
  const BottomMargin: real := 10.0
  /** Where drawing resumes after a break inside draw_message. */
  const BreakTop: real := PageHeight - TopMargin
  const Padding: real := 3.0
  const LineHeight: real := 5.0
  const AvatarSize: real := 10.0
  /** The room the timestamp line takes above the bubble. */
  const StampGap: real := 5.0
  /** The space left below a bubble (or the avatar) before the next message. */
  const TrailGap: real := 8.0
  const NoticeStep: real := 10.0
  /** What the outer exception handler takes off the position it had reached. */
  const FaultStep: real := 5.0

  /** Points per millimetre. */
  const PointsPerMm: real := 72.0 / 25.4
  /** text_max_width = page width - 60 mm, in points. */
  const TextMaxWidth: real := 150.0 * 72.0 / 25.4
  const WideWrap: real := TextMaxWidth * 0.8
  const VoiceWrap: real := TextMaxWidth * 0.6
  const VoiceCap: real := TextMaxWidth * 0.7
  const PictureMaxWidth: real := TextMaxWidth * 0.6
  const PictureMaxHeight: real := 80.0 * 72.0 / 25.4
  const BodyFont: string := "SimSun"
  const BodySize: real := 10.0

  function Max(a: real, b: real): real {
    if a >= b then a else b
  }

  function Min(a: real, b: real): real {
    if a <= b then a else b
  }

  // ---------------------------------------------------------------------------
  // Message kinds
  // ---------------------------------------------------------------------------

  datatype Kind = Notice | Text | Image | Voice | Video | Sticker | File | Other

  /** The dispatch on type_name, in the order of the source's branches. */
  function KindOf(t: string): Kind {
    if t == "系统通知" then Notice
    else if t == "文本" then Kind.Text
    else if t == "图片" then Image
    else if t == "语音" then Voice
    else if t == "视频" then Video
    else if t == "动画表情" then Sticker
    else if Occurs("文件", t) then File
    else Other
  }

  // ---------------------------------------------------------------------------
  // The environment
  // ---------------------------------------------------------------------------

  /** Where the outer exception handler catches a failure: before the page-break
      test, after it, or after the timestamp has been placed. */
  datatype Stage = BeforeBreak | AfterBreak | AfterStamp
  datatype Fault = Intact | Raises(at: Stage)

  /** What the world supplies for a message whose source path is non-empty:
      the pixel size of its picture or video thumbnail when it could be
      fetched and opened, whether its sticker could be drawn, the transcript
      and probed length of a voice clip when transcription ran, and the cached
      copy of a file. `fault` says whether and where drawing raises. */
  datatype MediaEnv = MediaEnv(
    image: Message -> Option<Size>,
    thumbnail: Message -> Option<Size>,
    sticker: Message -> bool,
    voice: Message -> Option<(string, Duration)>,
    cachedFile: Message -> Option<string>,
    fault: Message -> Fault)

  // download_media_file returns None for an empty source path.
  function ImageOf(media: MediaEnv, m: Message): Option<Size> {
    if m.src == "" then None else media.image(m)
  }

  function ThumbnailOf(media: MediaEnv, m: Message): Option<Size> {
    if m.src == "" then None else media.thumbnail(m)
  }

  function StickerShown(media: MediaEnv, m: Message): bool {
    m.src != "" && media.sticker(m)
  }

  function VoiceOf(media: MediaEnv, m: Message): Option<(string, Duration)> {
    if m.src == "" then None else media.voice(m)
  }

  function CachedFileOf(media: MediaEnv, m: Message): Option<string> {
    if m.src == "" then None else media.cachedFile(m)
  }

  // ---------------------------------------------------------------------------
  // Bubble contents
  // ---------------------------------------------------------------------------

  /** The bubble's content: wrapped lines, or a picture bubble's height in mm. */
  datatype Body = Lines(lines: seq<string>) | Picture(height: real)

  function BubbleHeight(b: Body): real {
    match b
    case Lines(ls) => |ls| as real * LineHeight + 2.0 * Padding
    case Picture(h) => h
  }

  function BodyWidth(env: FontEnv): string -> real {
    WidthIn(env, BodyFont, BodySize)
  }

  /** `wrap_text(...) or [fallback]`, or plain wrap_text when there is no fallback. */
  function Wrapped(env: FontEnv, text: string, maxW: real, fallback: Option<string>): seq<string> {
    var ls := WrapLines(BodyWidth(env), text, maxW);
    if ls == [] && fallback.Some? then [fallback.value] else ls
  }

  /** The text branch's text after the shortcode pass. */
  function ProcessedText(table: ShortcodeTable, m: Message): string {
    Expand(table, m.text).0
  }

  const VoicePlaceholder: string := "\U{1F4E2}[语音消息]"

  /** The voice bubble's text: the transcript under a heading with the length,
      or a placeholder. */
  function VoiceText(media: MediaEnv, m: Message): string {
    match VoiceOf(media, m)
    case Some((transcript, length)) =>
      "\U{1F4E2}语音转文本 (" + FormatVoiceMessage(length) + "):\n" + transcript
    case None => VoicePlaceholder
  }

  function FileText(media: MediaEnv, m: Message): string {
    "[文件] " + FileDisplayName(m.text, m.src, CachedFileOf(media, m))
  }

  function OtherText(m: Message): string {
    "[" + TypeName(m) + "] " + m.text
  }

  function MmOf(points: real): real {
    points * 25.4 / 72.0
  }

  /** A fitted picture gives a bubble `extra` mm taller than the picture;
      without one the branch falls back to a one-word text bubble. */
  function PictureOr(env: FontEnv, size: Option<Size>, extra: real, fallback: string): Body {
    var fit := if size.Some? then ImageFit(size.value, PictureMaxWidth, PictureMaxHeight) else None;
    if fit.Some? then Picture(MmOf(fit.value.height) + extra)
    else Lines(Wrapped(env, fallback, WideWrap, None))
  }

  /** The bubble each branch draws. */
  function BodyOf(env: FontEnv, table: ShortcodeTable, media: MediaEnv, m: Message): Body
    requires KindOf(TypeName(m)) != Notice
  {
    match KindOf(TypeName(m))
    case Text => Lines(Wrapped(env, ProcessedText(table, m), WideWrap, Some("[空消息]")))
    case Image => PictureOr(env, ImageOf(media, m), 4.0 * Padding, "[图片]")
    case Voice => Lines(Wrapped(env, VoiceText(media, m), VoiceWrap, Some("\U{1F50A} [语音消息]")))
    case Video => PictureOr(env, ThumbnailOf(media, m), 4.0 * Padding + 5.0, "[视频消息]")
    case Sticker =>
      if StickerShown(media, m) then Picture(40.0 + 4.0 * Padding)
      else Lines(Wrapped(env, "[表情消息]", WideWrap, None))
    case File => Lines(Wrapped(env, FileText(media, m), WideWrap, Some("[文件]")))
    case Other => Lines(Wrapped(env, OtherText(m), WideWrap, Some("[" + TypeName(m) + "]")))
  }

  /** The height the page-break test reserves (message_height): the real
      bubble for text, a fixed allowance for every other kind. */
  function Reserve(env: FontEnv, table: ShortcodeTable, m: Message): real
    requires KindOf(TypeName(m)) != Notice
  {
    match KindOf(TypeName(m))
    case Text => Max(BubbleHeight(BodyOf(env, table, media0, m)), AvatarSize) + 12.0
    case Image => 80.0 + 12.0
    case Video => 60.0 + 12.0
    case Sticker => 60.0 + 12.0
    case _ => 30.0 + 10.0
  }

  /** The text body does not depend on the media, so any environment serves
      to compute the text reserve. */
  const media0: MediaEnv := MediaEnv(_ => None, _ => None, _ => false, _ => None, _ => None, _ => Intact)

  // ---------------------------------------------------------------------------
  // Vertical placement
  // ---------------------------------------------------------------------------

  /** The position draw_message returns and whether it started a new page. */
  datatype Outcome = Outcome(y: real, newPage: bool)

  /** A system notice: a new page when fewer than 20 mm are left, then one
      10 mm line. */
  function PlaceNotice(y: real, fault: Fault): Outcome {
    if fault == Raises(BeforeBreak) then Outcome(y - FaultStep, false)
    else
      var broke := y < BottomMargin + 10.0;
      var y1 := if broke then BreakTop else y;
      if fault.Raises? then Outcome(y1 - FaultStep, broke) else Outcome(y1 - NoticeStep, broke)
  }

  /** Any other message: a new page when the reserve does not fit above the
      bottom margin, the timestamp, then the bubble (at least avatar-high) and
      the trailing gap. */
  function PlaceBubble(reserve: real, bubble: real, y: real, fault: Fault): Outcome {
    if fault == Raises(BeforeBreak) then Outcome(y - FaultStep, false)
    else
      var broke := y - reserve < BottomMargin;
      var y1 := if broke then BreakTop else y;
      if fault == Raises(AfterBreak) then Outcome(y1 - FaultStep, broke)
      else
        var y2 := y1 - StampGap;
        if fault == Raises(AfterStamp) then Outcome(y2 - FaultStep, broke)
        else Outcome(y2 - Max(bubble, AvatarSize) - TrailGap, broke)
  }

  /** draw_message's effect on the layout. */
  function Draw(env: FontEnv, table: ShortcodeTable, media: MediaEnv, m: Message, y: real): Outcome {
    if KindOf(TypeName(m)) == Notice then PlaceNotice(y, media.fault(m))
    else PlaceBubble(Reserve(env, table, m), BubbleHeight(BodyOf(env, table, media, m)), y, media.fault(m))
  }

  // ---------------------------------------------------------------------------
  // Properties of the placement
  // ---------------------------------------------------------------------------

  /** The placement of a notice: a break exactly when less than 20 mm is
      left, unless the failure comes first; one line on success, 5 mm on a
      failure. */
  predicate NoticePlaced(o: Outcome, y: real, fault: Fault) {
    var y1 := if o.newPage then BreakTop else y;
    (fault == Raises(BeforeBreak) ==> !o.newPage) &&
    (fault != Raises(BeforeBreak) ==> (o.newPage <==> y < 20.0)) &&
    (fault == Intact ==> o.y == y1 - NoticeStep) &&
    (fault.Raises? ==> o.y == y1 - FaultStep) &&
    o.y <= y1 - FaultStep
  }

  /** The placement of a bubble: a break exactly when the reserve does not fit
      above the bottom margin, unless the failure comes first; then the stamp,
      the bubble and the gap, or 5 mm below where the failure happened. */
  predicate BubblePlaced(o: Outcome, reserve: real, bubble: real, y: real, fault: Fault) {
    var y1 := if o.newPage then BreakTop else y;
    (fault == Raises(BeforeBreak) ==> !o.newPage) &&
    (fault != Raises(BeforeBreak) ==> (o.newPage <==> y - reserve < BottomMargin)) &&
    (fault == Intact ==> o.y == y1 - StampGap - Max(bubble, AvatarSize) - TrailGap) &&
    (fault.Raises? ==> o.y == (if fault.at == AfterStamp then y1 - StampGap else y1) - FaultStep) &&
    o.y <= y1 - FaultStep
  }

  lemma NoticePlacement(y: real, fault: Fault)
    ensures NoticePlaced(PlaceNotice(y, fault), y, fault)
  {
  }

  lemma BubblePlacement(reserve: real, bubble: real, y: real, fault: Fault)
    ensures BubblePlaced(PlaceBubble(reserve, bubble, y, fault), reserve, bubble, y, fault)
  {
  }

  /** Draw places a notice or a bubble of the message's reserve and height. */
  lemma DrawPlacement(env: FontEnv, table: ShortcodeTable, media: MediaEnv, m: Message, y: real)
    ensures KindOf(TypeName(m)) == Notice ==> NoticePlaced(Draw(env, table, media, m, y), y, media.fault(m))
    ensures KindOf(TypeName(m)) != Notice ==>
      BubblePlaced(Draw(env, table, media, m, y), Reserve(env, table, m), BubbleHeight(BodyOf(env, table, media, m)), y, media.fault(m))
  {
    if KindOf(TypeName(m)) == Notice {
      NoticePlacement(y, media.fault(m));
    } else {
      BubblePlacement(Reserve(env, table, m), BubbleHeight(BodyOf(env, table, media, m)), y, media.fault(m));
    }
  }

  /** The page-break rule: unless the failure comes first, a message other than
      a notice starts a new page exactly when y minus its reserve falls below
      the bottom margin, a notice exactly when less than 20 mm is left. */
  lemma DrawBreakRule(env: FontEnv, table: ShortcodeTable, media: MediaEnv, m: Message, y: real)
    ensures media.fault(m) == Raises(BeforeBreak) ==> !Draw(env, table, media, m, y).newPage
    ensures media.fault(m) != Raises(BeforeBreak) && KindOf(TypeName(m)) == Notice ==>
      (Draw(env, table, media, m, y).newPage <==> y < 20.0)
    ensures media.fault(m) != Raises(BeforeBreak) && KindOf(TypeName(m)) != Notice ==>
      (Draw(env, table, media, m, y).newPage <==> y - Reserve(env, table, m) < BottomMargin)
  {
    DrawPlacement(env, table, media, m, y);
  }

  /** Where an undisturbed message leaves the cursor: below its timestamp,
      its bubble (at least avatar-high) and the trailing gap, measured from
      the top of a fresh page when it broke. */
  lemma DrawAdvance(env: FontEnv, table: ShortcodeTable, media: MediaEnv, m: Message, y: real)
    requires media.fault(m) == Intact && KindOf(TypeName(m)) != Notice
    ensures var o := Draw(env, table, media, m, y);
      o.y == (if o.newPage then BreakTop else y) - StampGap
             - Max(BubbleHeight(BodyOf(env, table, media, m)), AvatarSize) - TrailGap
  {
    DrawPlacement(env, table, media, m, y);
  }

  /** On a failure the result is 5 mm below the position reached when it happened. */
  lemma DrawFault(env: FontEnv, table: ShortcodeTable, media: MediaEnv, m: Message, y: real, at: Stage)
    requires media.fault(m) == Raises(at)
    ensures var o := Draw(env, table, media, m, y);
      var y1 := if o.newPage then BreakTop else y;
      o.y == (if at == AfterStamp && KindOf(TypeName(m)) != Notice then y1 - StampGap else y1) - FaultStep
  {
    DrawPlacement(env, table, media, m, y);
  }

  /** Every message moves the cursor down from where it started (the top of
      the new page after a break), by at least 5 mm. */
  lemma DrawDescends(env: FontEnv, table: ShortcodeTable, media: MediaEnv, m: Message, y: real)
    ensures var o := Draw(env, table, media, m, y);
      o.y <= (if o.newPage then BreakTop else y) - FaultStep
  {
    DrawPlacement(env, table, media, m, y);
  }

  /** The text reserve is the bubble plus 12 mm, so a text bubble that did not
      force a break ends at least 7 mm above the bottom margin. */
  lemma TextBubbleClearsMargin(env: FontEnv, table: ShortcodeTable, media: MediaEnv, m: Message, y: real)
    requires KindOf(TypeName(m)) == Kind.Text && media.fault(m) == Intact
    requires !Draw(env, table, media, m, y).newPage
    ensures y - StampGap - BubbleHeight(BodyOf(env, table, media, m)) >= BottomMargin + 7.0
  {
    assert BodyOf(env, table, media, m) == BodyOf(env, table, media0, m);
  }

  /** The image allowance is the tallest picture bubble (80 mm + 12 mm), so an
      image bubble that did not force a break stays on the page. */
  lemma ImageBubbleOnPage(env: FontEnv, table: ShortcodeTable, media: MediaEnv, m: Message, y: real)
    requires KindOf(TypeName(m)) == Image && media.fault(m) == Intact
    requires !Draw(env, table, media, m, y).newPage
    ensures y - StampGap - BubbleHeight(BodyOf(env, table, media, m)) >= 5.0
  {
    PictureOrHeight(env, ImageOf(media, m), 4.0 * Padding, "[图片]");
    assert BodyOf(env, table, media, m) == PictureOr(env, ImageOf(media, m), 4.0 * Padding, "[图片]");
    assert Reserve(env, table, m) == 92.0;
  }

  /** Videos are not protected like images: the break test reserves 72 mm,
      but a thumbnail fitted to the full 80 mm gives a 97 mm bubble, so from
      a position between 82 mm and 102 mm the bubble is drawn without a
      break and reaches below the bottom edge of the page. */
  lemma VideoBubbleMayLeavePage(env: FontEnv, table: ShortcodeTable, media: MediaEnv, m: Message, y: real)
    requires KindOf(TypeName(m)) == Video && media.fault(m) == Intact
    requires ThumbnailOf(media, m).Some?
    requires var fit := ImageFit(ThumbnailOf(media, m).value, PictureMaxWidth, PictureMaxHeight);
      fit.Some? && fit.value.height == PictureMaxHeight
    requires 82.0 <= y < 102.0
    ensures !Draw(env, table, media, m, y).newPage
    ensures y - StampGap - BubbleHeight(BodyOf(env, table, media, m)) < 0.0
  {
    assert BodyOf(env, table, media, m) == Picture(MmOf(PictureMaxHeight) + 4.0 * Padding + 5.0);
    assert MmOf(PictureMaxHeight) == 80.0;
    assert Reserve(env, table, m) == 72.0;
    BubblePlacement(72.0, 97.0, y, Intact);
  }

  /** A picture bubble is at most the largest fitted picture plus its margin;
      its fallback at most one line per code point of the fallback word. */
  lemma PictureOrHeight(env: FontEnv, size: Option<Size>, extra: real, fallback: string)
    requires fallback != ""
    ensures var h := BubbleHeight(PictureOr(env, size, extra, fallback));
      h <= Max(80.0 + extra, |fallback| as real * LineHeight + 2.0 * Padding)
  {
    var fit := if size.Some? then ImageFit(size.value, PictureMaxWidth, PictureMaxHeight) else None;
    if fit.Some? {
      assert fit.value.height <= PictureMaxHeight;
      assert MmOf(fit.value.height) <= 80.0;
    } else {
      WrapLinesOneUnit(env, fallback);
    }
  }

  /** A short fallback word fits on one line of the wide wrap. */
  lemma WrapLinesOneUnit(env: FontEnv, word: string)
    requires word != ""
    ensures |WrapLines(BodyWidth(env), word, WideWrap)| <= |word|
  {
    WrapRoundTrip(BodyWidth(env), word, WideWrap);
    var ls := WrapLines(BodyWidth(env), word, WideWrap);
    ConcatNonEmpty(ls);
  }

  // ---------------------------------------------------------------------------
  // What the text bubbles show
  // ---------------------------------------------------------------------------

  /** A text bubble shows "[空消息]" when the processed text is empty, and
      otherwise the processed text itself, split into non-empty lines. */
  lemma TextBubbleShows(env: FontEnv, table: ShortcodeTable, media: MediaEnv, m: Message)
    requires KindOf(TypeName(m)) == Kind.Text
    ensures BodyOf(env, table, media, m).Lines?
    ensures var ls := BodyOf(env, table, media, m).lines;
      (ProcessedText(table, m) == "" ==> ls == ["[空消息]"]) &&
      (ProcessedText(table, m) != "" ==> Concat(ls) == ProcessedText(table, m) && forall k :: 0 <= k < |ls| ==> ls[k] != "")
  {
    WrapRoundTrip(BodyWidth(env), ProcessedText(table, m), WideWrap);
  }

  /** The voice, file and other bubbles always show their whole text: those
      texts are never empty, so the `or [...]` fallbacks never apply. */
  lemma LabelledBubblesShow(env: FontEnv, table: ShortcodeTable, media: MediaEnv, m: Message)
    requires KindOf(TypeName(m)) in {Voice, File, Other}
    ensures BodyOf(env, table, media, m).Lines?
    ensures KindOf(TypeName(m)) == Voice ==> Concat(BodyOf(env, table, media, m).lines) == VoiceText(media, m)
    ensures KindOf(TypeName(m)) == File ==> Concat(BodyOf(env, table, media, m).lines) == FileText(media, m)
    ensures KindOf(TypeName(m)) == Other ==> Concat(BodyOf(env, table, media, m).lines) == OtherText(m)
  {
    var kind := KindOf(TypeName(m));
    if kind == Voice {
      WrapRoundTrip(BodyWidth(env), VoiceText(media, m), VoiceWrap);
    } else if kind == File {
      WrapRoundTrip(BodyWidth(env), FileText(media, m), WideWrap);
    } else {
      WrapRoundTrip(BodyWidth(env), OtherText(m), WideWrap);
    }
  }

  /** A file message with no usable text and no source path is shown as
      "[文件] 未知文件": the cached-copy branch needs a source path to exist. */
  lemma FileWithoutSource(media: MediaEnv, m: Message)
    requires (m.text == "" || m.text == "文件") && m.src == ""
    ensures FileText(media, m) == "[文件] " + UnknownFile
  {
  }

  // ---------------------------------------------------------------------------
  // The drawing method
  // ---------------------------------------------------------------------------

  /** The widest of the lines. */
  function MaxWidth(width: string -> real, lines: seq<string>): real
    requires lines != []
  {
    if |lines| == 1 then width(lines[0])
    else
      var w := MaxWidth(width, lines[..|lines| - 1]);
      var last := width(lines[|lines| - 1]);
      if w >= last then w else last
  }

  /** MaxWidth is the width of one of the lines and no line is wider. */
  lemma {:induction false} MaxWidthIsMax(width: string -> real, lines: seq<string>)
    requires lines != []
    ensures forall k :: 0 <= k < |lines| ==> width(lines[k]) <= MaxWidth(width, lines)
    ensures exists k :: 0 <= k < |lines| && width(lines[k]) == MaxWidth(width, lines)
    decreases |lines|
  {
    if |lines| > 1 {
      var front := lines[..|lines| - 1];
      MaxWidthIsMax(width, front);
      assert forall k :: 0 <= k < |lines| - 1 ==> front[k] == lines[k];
      var j :| 0 <= j < |front| && width(front[j]) == MaxWidth(width, front);
      if MaxWidth(width, front) >= width(lines[|lines| - 1]) {
        assert width(lines[j]) == MaxWidth(width, lines);
      } else {
        assert width(lines[|lines| - 1]) == MaxWidth(width, lines);
      }
    } else {
      assert width(lines[0]) == MaxWidth(width, lines);
    }
  }

  /** One more line: the widest of the first i + 1 lines. */
  lemma MaxWidthStep(width: string -> real, lines: seq<string>, i: nat)
    requires 1 <= i < |lines|
    ensures var w := MaxWidth(width, lines[..i]);
      MaxWidth(width, lines[..i + 1]) == if width(lines[i]) > w then width(lines[i]) else w
  {
    assert lines[..i + 1][..i] == lines[..i];
  }

  /** One iteration of the widest-line loop: measure the line and keep the larger width. */
  method Widen(cache: WidthCache, widest: real, line: string) returns (widest': real)
    requires cache.Valid()
    modifies cache
    ensures cache.Valid()
    ensures var w := BodyWidth(cache.env)(line);
      widest' == if w > widest then w else widest
  {
    var w := cache.Measure(line, BodyFont, BodySize);
    widest' := widest;
    if w > widest {
      widest' := w;
    }
  }

  /** bubble_width = min(cap, widest line) + 2 * padding, in points. */
  method MeasureBubble(cache: WidthCache, lines: seq<string>, cap: real) returns (bubbleWidth: real)
    requires cache.Valid() && lines != []
    modifies cache
    ensures cache.Valid()
    ensures bubbleWidth == Min(cap, MaxWidth(BodyWidth(cache.env), lines)) + 2.0 * Padding * PointsPerMm
  {
    ghost var width := BodyWidth(cache.env);
    var widest := cache.Measure(lines[0], BodyFont, BodySize);
    assert widest == width(lines[0]);
    assert lines[..1] == [lines[0]];
    var i := 1;
    while i < |lines|
      invariant 1 <= i <= |lines|
      invariant cache.Valid() && width == BodyWidth(cache.env)
      invariant widest == MaxWidth(width, lines[..i])
    {
      MaxWidthStep(width, lines, i);
      widest := Widen(cache, widest, lines[i]);
      i := i + 1;
    }
    assert lines[..|lines|] == lines;
    bubbleWidth := Min(cap, widest) + 2.0 * Padding * PointsPerMm;
  }

  /** A text bubble: wrap, apply the fallback, and measure the bubble. */
  method TextBubble(cache: WidthCache, text: string, maxW: real, cap: real, fallback: Option<string>)
    returns (lines: seq<string>)
    requires cache.Valid() && (text != "" || fallback.Some?)
    modifies cache
    ensures cache.Valid()
    ensures lines == Wrapped(cache.env, text, maxW, fallback)
  {
    lines := WrapText(cache, text, BodyFont, BodySize, maxW);
    if lines == [] && fallback.Some? {
      lines := [fallback.value];
    }
    if lines == [] {
      WrapRoundTrip(BodyWidth(cache.env), text, maxW);
    }
    // bubble_width only places the bubble horizontally, which is not
    // modelled; the call stays for the memo entries it writes.
    var bubbleWidth := MeasureBubble(cache, lines, cap);
  }

  /** The bubble of a picture branch: the fitted picture, or the fallback word. */
  method PictureBubble(cache: WidthCache, size: Option<Size>, extra: real, fallback: string)
    returns (b: Body)
    requires cache.Valid() && fallback != ""
    modifies cache
    ensures cache.Valid()
    ensures b == PictureOr(cache.env, size, extra, fallback)
  {
    var fit := if size.Some? then ImageFit(size.value, PictureMaxWidth, PictureMaxHeight) else None;
    if fit.Some? {
      b := Picture(MmOf(fit.value.height) + extra);
    } else {
      var lines := TextBubble(cache, fallback, WideWrap, WideWrap, None);
      b := Lines(lines);
    }
  }

  /** The bubble a branch draws, produced the way the branch produces it. */
  method DrawBody(cache: WidthCache, table: ShortcodeTable, media: MediaEnv, m: Message) returns (b: Body)
    requires cache.Valid() && KindOf(TypeName(m)) != Notice
    modifies cache
    ensures cache.Valid()
    ensures b == BodyOf(cache.env, table, media, m)
  {
    var kind := KindOf(TypeName(m));
    match kind {
      case Text =>
        var processed, count := ExpandShortcodes(table, m.text);
        var lines := TextBubble(cache, processed, WideWrap, WideWrap, Some("[空消息]"));
        b := Lines(lines);
      case Image =>
        b := PictureBubble(cache, ImageOf(media, m), 4.0 * Padding, "[图片]");
      case Voice =>
        var lines := TextBubble(cache, VoiceText(media, m), VoiceWrap, VoiceCap, Some("\U{1F50A} [语音消息]"));
        b := Lines(lines);
      case Video =>
        b := PictureBubble(cache, ThumbnailOf(media, m), 4.0 * Padding + 5.0, "[视频消息]");
      case Sticker =>
        if StickerShown(media, m) {
          b := Picture(40.0 + 4.0 * Padding);
        } else {
          var lines := TextBubble(cache, "[表情消息]", WideWrap, WideWrap, None);
          b := Lines(lines);
        }
      case File =>
        var lines := TextBubble(cache, FileText(media, m), WideWrap, WideWrap, Some("[文件]"));
        b := Lines(lines);
      case Other =>
        var lines := TextBubble(cache, OtherText(m), WideWrap, WideWrap, Some("[" + TypeName(m) + "]"));
        b := Lines(lines);
    }
  }

  /** The height the page-break test reserves, computed as the source does
      (for text: the shortcode pass, the wrap and the bubble measurement). */
  method MeasureReserve(cache: WidthCache, table: ShortcodeTable, m: Message) returns (reserve: real)
    requires cache.Valid() && KindOf(TypeName(m)) != Notice
    modifies cache
    ensures cache.Valid()
    ensures reserve == Reserve(cache.env, table, m)
  {
    var kind := KindOf(TypeName(m));
    if kind == Kind.Text {
      var b := DrawBody(cache, table, media0, m);
      reserve := Max(BubbleHeight(b), AvatarSize) + 12.0;
    } else if kind == Image {
      reserve := 80.0 + 12.0;
    } else if kind == Video || kind == Sticker {
      reserve := 60.0 + 12.0;
    } else {
      reserve := 30.0 + 10.0;
    }
  }

  /** draw_message: may finish the page, then lays out the message and returns
      the new position. */
  method DrawMessage(tracker: PageTracker, cache: WidthCache, table: ShortcodeTable, media: MediaEnv, m: Message, y: real)
    returns (next: real)
    requires tracker.Valid() && cache.Valid()
    modifies tracker, cache
    ensures tracker.Valid() && cache.Valid()
    ensures next == Draw(cache.env, table, media, m, y).y
    ensures tracker.currentPage == old(tracker.currentPage) + (if Draw(cache.env, table, media, m, y).newPage then 1 else 0)
  {
    var fault := media.fault(m);
    var kind := KindOf(TypeName(m));
    if fault == Raises(BeforeBreak) {
      return y - FaultStep;
    }
    if kind == Notice {
      var y1 := y;
      if y < BottomMargin + 10.0 {
        tracker.ShowPage();
        y1 := BreakTop;
      }
      if fault.Raises? {
        return y1 - FaultStep;
      }
      return y1 - NoticeStep;
    }
    var reserve := MeasureReserve(cache, table, m);
    var y1 := y;
    if y - reserve < BottomMargin {
      tracker.ShowPage();
      y1 := BreakTop;
    }
    if fault == Raises(AfterBreak) {
      return y1 - FaultStep;
    }
    var y2 := y1 - StampGap;
    if fault == Raises(AfterStamp) {
      return y2 - FaultStep;
    }
    var b := DrawBody(cache, table, media, m);
    next := y2 - Max(BubbleHeight(b), AvatarSize) - TrailGap;
  }
}
