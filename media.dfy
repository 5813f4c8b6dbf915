/** Helpers of the media branches: the voice-length label
    (format_voice_message), file names (os.path.basename and the display-name
    choice of the file branch), the picture fit of the image and video
    branches, and the media cache name of download_media_file. */
module Media {
  import opened Wrappers
  import opened Decimal

  // ---------------------------------------------------------------------------
  // format_voice_message
  // ---------------------------------------------------------------------------

  /** A voice length as the probe reports it: none at all, a number of
      seconds, or a value that int() refuses (NaN or infinite). */
  datatype Duration = Unknown | Seconds(value: real) | Unconvertible

  const VoiceLabel: string := "语音"

  /** int(r): truncation toward zero. */
  function Trunc(r: real): (n: int)
    ensures r >= 0.0 ==> n as real <= r < n as real + 1.0
    ensures r < 0.0 ==> n as real - 1.0 < r <= n as real
  {
    if r >= 0.0 then r.Floor else -((-r).Floor)
  }

  /** "{m}:{s:02d}" with m = n // 60 and s = n % 60 (Python's floor division,
      so the seconds are in 0..59 even for a negative n), or the plain label
      when there is no usable length. */
  function FormatVoiceMessage(d: Duration): (shown: string)
    ensures !d.Seconds? ==> shown == VoiceLabel
  {
    match d
    case Seconds(v) =>
      var n := Trunc(v);
      IntToString(n / 60) + ":" + Pad2(n % 60)
    case _ => VoiceLabel
  }

  /** Position of the first `c` in `s`, or |s| when there is none. */
  function IndexOf(s: string, c: char): (i: nat)
    ensures i <= |s|
    ensures i < |s| ==> s[i] == c
    ensures forall k :: 0 <= k < i ==> s[k] != c
  {
    if s == [] then 0 else if s[0] == c then 0 else 1 + IndexOf(s[1..], c)
  }

  /** Reads "m:ss" back as a number of seconds, m possibly negative. */
  function ParseClock(clock: string): Option<int> {
    var i := IndexOf(clock, ':');
    if i == |clock| then None
    else
      var minutes := clock[..i];
      var seconds := clock[i + 1..];
      if |seconds| != 2 || !IsDigits(seconds) then None
      else if IsDigits(minutes) then Some(DigitsValue(minutes) * 60 + DigitsValue(seconds))
      else if |minutes| > 1 && minutes[0] == '-' && IsDigits(minutes[1..]) then
        Some(-(DigitsValue(minutes[1..]) as int) * 60 + DigitsValue(seconds))
      else None
  }

  /** The label of a length is "m:ss" for the truncated number of seconds. */
  lemma VoiceLabelRoundTrip(v: real)
    ensures ParseClock(FormatVoiceMessage(Seconds(v))) == Some(Trunc(v))
  {
    var n := Trunc(v);
    ClockRoundTrip(n / 60, n % 60);
  }

  /** Reading back "m:ss" gives m * 60 + ss. */
  lemma ClockRoundTrip(m: int, s: nat)
    requires s < 60
    ensures ParseClock(IntToString(m) + ":" + Pad2(s)) == Some(m * 60 + s)
  {
    NoColon(m);
    ClockParts(IntToString(m), s);
    if m >= 0 {
      ClockRoundTripNat(m, s);
    } else {
      ClockRoundTripNegative(m, s);
    }
  }

  lemma ClockRoundTripNat(m: nat, s: nat)
    requires s < 60
    requires var shown := IntToString(m) + ":" + Pad2(s);
      IndexOf(shown, ':') == |IntToString(m)| && shown[..|IntToString(m)|] == IntToString(m)
      && shown[|IntToString(m)| + 1..] == Pad2(s)
    ensures ParseClock(IntToString(m) + ":" + Pad2(s)) == Some(m * 60 + s)
  {
    NatToStringRoundTrip(m);
  }

  lemma ClockRoundTripNegative(m: int, s: nat)
    requires m < 0 && s < 60
    requires var shown := IntToString(m) + ":" + Pad2(s);
      IndexOf(shown, ':') == |IntToString(m)| && shown[..|IntToString(m)|] == IntToString(m)
      && shown[|IntToString(m)| + 1..] == Pad2(s)
    ensures ParseClock(IntToString(m) + ":" + Pad2(s)) == Some(m * 60 + s)
  {
    var ms := IntToString(m);
    NatToStringRoundTrip(-m);
    assert ms[1..] == NatToString(-m);
    assert !IsDigits(ms);
    assert -((-m) as int) * 60 == m * 60;
  }

  /** A printed integer holds no ':'. */
  lemma NoColon(m: int)
    ensures forall k :: 0 <= k < |IntToString(m)| ==> IntToString(m)[k] != ':'
  {
    var ms := IntToString(m);
    forall k | 0 <= k < |ms|
      ensures ms[k] != ':'
    {
      if m < 0 && k > 0 {
        assert ms[k] == ms[1..][k - 1];
      }
    }
  }

  /** The clock text splits at its only ':' into the minutes and the seconds. */
  lemma ClockParts(ms: string, s: nat)
    requires s < 60
    requires forall k :: 0 <= k < |ms| ==> ms[k] != ':'
    ensures var shown := ms + ":" + Pad2(s);
      IndexOf(shown, ':') == |ms| && shown[..|ms|] == ms && shown[|ms| + 1..] == Pad2(s)
  {
    var shown := ms + ":" + Pad2(s);
    IndexOfPrefix(ms, ":" + Pad2(s), ':');
    assert shown == ms + (":" + Pad2(s));
  }

  lemma {:induction false} IndexOfPrefix(a: string, b: string, c: char)
    requires forall k :: 0 <= k < |a| ==> a[k] != c
    requires b != [] && b[0] == c
    ensures IndexOf(a + b, c) == |a|
    decreases |a|
  {
    if a != [] {
      assert (a + b)[1..] == a[1..] + b;
      IndexOfPrefix(a[1..], b, c);
    }
  }

  /** The plain label is not mistaken for a length. */
  lemma VoiceFallbackUnparsed()
    ensures ParseClock(VoiceLabel) == None
  {
    assert IndexOf(VoiceLabel, ':') == |VoiceLabel|;
  }

  // ---------------------------------------------------------------------------
  // File names
  // ---------------------------------------------------------------------------

  /** os.path.basename (POSIX): everything after the last '/'. */
  function Basename(path: string): (b: string)
    ensures |b| <= |path| && path[|path| - |b|..] == b
    ensures forall k :: 0 <= k < |b| ==> b[k] != '/'
    ensures |b| < |path| ==> path[|path| - |b| - 1] == '/'
  {
    if path == [] || path[|path| - 1] == '/' then []
    else
      var front := path[..|path| - 1];
      var b0 := Basename(front);
      var b := b0 + [path[|path| - 1]];
      assert front[|front| - |b0|..] == b0;
      assert path[|path| - |b|..] == front[|front| - |b0|..] + [path[|path| - 1]];
      assert |b| < |path| ==> path[|path| - |b| - 1] == front[|front| - |b0| - 1];
      b
  }

  const UnknownFile: string := "未知文件"

  /** The name the file branch shows: the message text unless it is empty or
      just "文件", else the base name of the source path, else that of the
      cached copy, else a placeholder. */
  function FileDisplayName(text: string, src: string, cached: Option<string>): (name: string)
    ensures text != "" && text != "文件" ==> name == text
    ensures (text == "" || text == "文件") && src != "" ==> name == Basename(src)
    ensures (text == "" || text == "文件") && src == "" && cached == None ==> name == UnknownFile
  {
    if text != "" && text != "文件" then text
    else if src != "" then Basename(src)
    else if cached.Some? && cached.value != "" then Basename(cached.value)
    else UnknownFile
  }

  // ---------------------------------------------------------------------------
  // Picture fit
  // ---------------------------------------------------------------------------

  /** Pixel size of a decoded picture. */
  datatype Size = Size(width: nat, height: nat)

  /** Drawn size in points. */
  datatype Fit = Fit(width: real, height: real)

  /** Scale a picture by min(maxW / w, maxH / h); a zero side makes the
      division fail, which the branch answers with its text fallback. */
  function ImageFit(size: Size, maxW: real, maxH: real): (r: Option<Fit>)
    requires maxW > 0.0 && maxH > 0.0
    ensures r.Some? <==> size.width > 0 && size.height > 0
    ensures r.Some? ==> 0.0 < r.value.width <= maxW && 0.0 < r.value.height <= maxH
    ensures r.Some? ==> r.value.width == maxW || r.value.height == maxH
    ensures r.Some? ==> r.value.width * size.height as real == r.value.height * size.width as real
  {
    if size.width == 0 || size.height == 0 then None
    else
      var w := size.width as real;
      var h := size.height as real;
      var ratio := if maxW / w <= maxH / h then maxW / w else maxH / h;
      FitScale(w, h, maxW, maxH);
      Some(Fit(w * ratio, h * ratio))
  }

  /** Scaling both sides by the smaller of the two ratios keeps the picture's
      proportions, fits both bounds and reaches one of them. */
  lemma FitScale(w: real, h: real, maxW: real, maxH: real)
    requires w > 0.0 && h > 0.0 && maxW > 0.0 && maxH > 0.0
    ensures var ratio := if maxW / w <= maxH / h then maxW / w else maxH / h;
      0.0 < w * ratio <= maxW && 0.0 < h * ratio <= maxH &&
      (w * ratio == maxW || h * ratio == maxH) &&
      (w * ratio) * h == (h * ratio) * w
  {
    var ratio := if maxW / w <= maxH / h then maxW / w else maxH / h;
    Quotient(maxW, w);
    Quotient(maxH, h);
    if maxW / w <= maxH / h {
      Scale(h, ratio, maxH / h);
    } else {
      Scale(w, ratio, maxW / w);
    }
    Scale(w, 0.0, ratio);
    Scale(h, 0.0, ratio);
    assert (w * ratio) * h == (h * ratio) * w;
  }

  lemma Quotient(a: real, b: real)
    requires a > 0.0 && b > 0.0
    ensures a / b > 0.0 && b * (a / b) == a
  {
  }

  lemma Scale(k: real, x: real, y: real)
    requires k > 0.0 && x <= y
    ensures k * x <= k * y
    ensures x < y ==> k * x < k * y
  {
  }

  // ---------------------------------------------------------------------------
  // Media cache names
  // ---------------------------------------------------------------------------

  /** The extension table of download_media_file. */
  function Extension(mediaType: string): string {
    if mediaType == "image" then ".jpg"
    else if mediaType == "video" then ".mp4"
    else if mediaType == "voice" then ".wav"
    else if mediaType == "emoji" then ".gif"
    else if mediaType == "file" then ""
    else ".dat"
  }

  /** os.path.join (POSIX) of a directory and a relative name. */
  function Join(dir: string, name: string): string {
    if dir == "" || dir[|dir| - 1] == '/' then dir + name else dir + "/" + name
  }

  /** The message id, or the digest of the source path when the id is empty. */
  function CacheId(msgId: string, src: string, digest: string -> string): string {
    if msgId != "" then msgId else digest(src)
  }

  /** "{dir}/{type}_{id}{ext}". */
  function CachePath(dir: string, mediaType: string, id: string): string {
    Join(dir, mediaType + "_" + id + Extension(mediaType))
  }

  /** Within one media type, different ids never share a cache file. */
  lemma CachePathInjective(dir: string, mediaType: string, id1: string, id2: string)
    requires CachePath(dir, mediaType, id1) == CachePath(dir, mediaType, id2)
    ensures id1 == id2
  {
    var sep := if dir == "" || dir[|dir| - 1] == '/' then dir else dir + "/";
    var head := sep + mediaType + "_";
    var ext := Extension(mediaType);
    assert CachePath(dir, mediaType, id1) == head + id1 + ext;
    assert CachePath(dir, mediaType, id2) == head + id2 + ext;
    MiddleDetermined(head, id1, id2, ext);
  }

  lemma MiddleDetermined(head: string, a: string, b: string, tail: string)
    requires head + a + tail == head + b + tail
    ensures a == b
  {
    var p := head + a + tail;
    assert |a| == |b|;
    assert a == p[|head|..|head| + |a|];
    assert b == (head + b + tail)[|head|..|head| + |b|];
  }

  /** The media types draw_message downloads. */
  predicate KnownType(t: string) {
    t == "image" || t == "video" || t == "voice" || t == "emoji" || t == "file"
  }

  /** Files of different known media types never collide, whatever the ids. */
  lemma CachePathTypesDisjoint(dir: string, t1: string, t2: string, id1: string, id2: string)
    requires KnownType(t1) && KnownType(t2) && t1 != t2
    ensures CachePath(dir, t1, id1) != CachePath(dir, t2, id2)
  {
    var sep := if dir == "" || dir[|dir| - 1] == '/' then dir else dir + "/";
    var p1 := CachePath(dir, t1, id1);
    var p2 := CachePath(dir, t2, id2);
    assert p1 == sep + (t1 + "_" + id1 + Extension(t1));
    assert p2 == sep + (t2 + "_" + id2 + Extension(t2));
    var k := if t1[0] != t2[0] then 0 else 1;
    assert t1[k] != t2[k];
    assert p1[|sep| + k] == t1[k];
    assert p2[|sep| + k] == t2[k];
  }
}
