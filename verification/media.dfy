/**
 * The fixed tables of the recorder page: the resolution presets, the MIME
 * type and file extension chosen per platform, the capture constraints asked
 * of the browser, and the name given to a downloaded recording.
 *
 * The platform test (a user-agent match for Safari) is the boolean `safari`.
 */
module Media {

  import opened Optional
  import opened Decimal

  datatype MediaKind = Video | Audio

  /** The four entries of the resolution table, keyed "xs", "sm", "md", "lg". */
  datatype Preset = XS | SM | MD | LG

  function Width(p: Preset): nat {
    match p
    case XS => 640
    case SM => 1024
    case MD => 1280
    case LG => 1920
  }

  function Height(p: Preset): nat {
    match p
    case XS => 480
    case SM => 576
    case MD => 720
    case LG => 1080
  }

  /** The key under which a preset is stored and the value of its radio input. */
  function PresetKey(p: Preset): string {
    match p
    case XS => "xs"
    case SM => "sm"
    case MD => "md"
    case LG => "lg"
  }

  /**
   * The table lookup `mediaRecordingSizes[key]`. The radio inputs are
   * rendered from the table's own keys, so the page only ever stores a key
   * that is found; the model's `SelectPreset` event therefore carries the
   * preset itself, and this lookup states the table rather than a step.
   */
  function PresetByKey(key: string): (r: Option<Preset>)
    ensures r.Some? ==> PresetKey(r.value) == key
    ensures r.None? ==> forall p: Preset :: PresetKey(p) != key
  {
    if key == "xs" then Some(XS)
    else if key == "sm" then Some(SM)
    else if key == "md" then Some(MD)
    else if key == "lg" then Some(LG)
    else None
  }

  lemma PresetKeyRoundTrip(p: Preset)
    ensures PresetByKey(PresetKey(p)) == Some(p)
  {
  }

  /** Larger presets are larger in both dimensions; so the height alone names the preset. */
  lemma PresetsIncrease(p: Preset, q: Preset)
    ensures Height(p) < Height(q) <==> Width(p) < Width(q)
    ensures Height(p) == Height(q) <==> p == q
  {
  }

  /** The platform's container: mp4 on Safari, webm elsewhere. */
  function Extension(safari: bool): string {
    if safari then "mp4" else "webm"
  }

  function MimeType(kind: MediaKind, safari: bool): string {
    match kind
    case Video => if safari then "video/mp4" else "video/webm"
    case Audio => if safari then "audio/mp4" else "audio/webm"
  }

  function KindName(kind: MediaKind): string {
    match kind
    case Video => "video"
    case Audio => "audio"
  }

  /** The text before the first `sep`, or all of `s` when `sep` does not occur; the first piece of a JavaScript split. */
  function BeforeFirst(s: string, sep: char): (r: string)
    ensures r <= s && sep !in r
    ensures |r| < |s| ==> s[|r|] == sep
  {
    if s == [] || s[0] == sep then [] else [s[0]] + BeforeFirst(s[1..], sep)
  }

  /** The text after the first `sep`, or nothing when `sep` does not occur. */
  function AfterFirst(s: string, sep: char): (r: string)
    ensures sep in s ==> s == BeforeFirst(s, sep) + [sep] + r
    ensures sep !in s ==> r == []
  {
    var before := BeforeFirst(s, sep);
    if |before| < |s| then s[|before| + 1..] else []
  }

  /** Splitting a string at the first separator recovers the pieces it was built from. */
  lemma {:induction false} SplitJoined(head: string, sep: char, tail: string)
    requires sep !in head
    ensures BeforeFirst(head + [sep] + tail, sep) == head
    ensures AfterFirst(head + [sep] + tail, sep) == tail
  {
    var s := head + [sep] + tail;
    if head == [] {
      assert s[0] == sep;
    } else {
      assert s[0] == head[0] != sep;
      assert s[1..] == head[1..] + [sep] + tail;
      SplitJoined(head[1..], sep, tail);
    }
  }

  /**
   * The MIME type's major type is the kind and its subtype is the platform's
   * file extension, for both kinds and both platforms.
   */
  lemma MimeTypeParts(kind: MediaKind, safari: bool)
    ensures BeforeFirst(MimeType(kind, safari), '/') == KindName(kind)
    ensures AfterFirst(MimeType(kind, safari), '/') == Extension(safari)
    ensures MimeType(kind, safari) == KindName(kind) + "/" + Extension(safari)
  {
    assert MimeType(kind, safari) == KindName(kind) + ['/'] + Extension(safari);
    SplitJoined(KindName(kind), '/', Extension(safari));
  }

  /** The two kinds never share a MIME type, so comparing the MIME type tells video from audio. */
  lemma MimeTypeDistinguishesKind(a: MediaKind, b: MediaKind, safari: bool)
    ensures MimeType(a, safari) == MimeType(b, safari) <==> a == b
  {
    MimeTypeParts(a, safari);
    MimeTypeParts(b, safari);
  }

  datatype VideoConstraints = VideoConstraints(width: nat, height: nat, frameRate: int)

  /** The argument of a stream request: `audio` and `video` (absent for `video: false`). */
  datatype Constraints = Constraints(audio: bool, video: Option<VideoConstraints>)

  /** What a start asks of the browser: always audio, and video only for the video kind. */
  function CaptureConstraints(kind: MediaKind, preset: Preset, frameRate: int): (c: Constraints)
    ensures c.audio
    ensures c.video.Some? <==> kind == Video
    ensures c.video.Some? ==>
              c.video.value.width == Width(preset) && c.video.value.height == Height(preset)
              && c.video.value.frameRate == frameRate
  {
    var video := if kind == Video
                 then Some(VideoConstraints(Width(preset), Height(preset), frameRate))
                 else None;
    Constraints(true, video)
  }

  /** The download name: major MIME type, preset height, `p.`, extension. */
  function FileName(kind: MediaKind, preset: Preset, safari: bool): string {
    BeforeFirst(MimeType(kind, safari), '/') + NatToString(Height(preset)) + "p." + Extension(safari)
  }

  /** The number of leading characters that are digits (`digits`) or non-digits (`!digits`). */
  function Span(s: string, digits: bool): (n: nat)
    ensures n <= |s|
    ensures forall k :: 0 <= k < n ==> IsDigit(s[k]) == digits
    ensures n < |s| ==> IsDigit(s[n]) != digits
  {
    if s == [] || IsDigit(s[0]) != digits then 0 else 1 + Span(s[1..], digits)
  }

  datatype FileParts = FileParts(kind: string, height: nat, extension: string)

  /** Reads `<digits>p.<extension>` into the number and the extension. */
  function ParseHeight(rest: string): Option<(nat, string)> {
    var d := Span(rest, true);
    if d == 0 || d + 2 > |rest| || rest[d..d + 2] != "p." then None
    else
      match ParseNat(rest[..d])
      case Some(height) => Some((height, rest[d + 2..]))
      case None => None
  }

  /** Reads a name of the shape `<letters><digits>p.<extension>` back into its parts. */
  function ParseFileName(name: string): Option<FileParts> {
    var i := Span(name, false);
    match ParseHeight(name[i..])
    case Some((height, extension)) => Some(FileParts(name[..i], height, extension))
    case None => None
  }

  lemma {:induction false} SpanOver(a: string, t: string, digits: bool)
    requires forall k :: 0 <= k < |a| ==> IsDigit(a[k]) == digits
    requires t != [] && IsDigit(t[0]) != digits
    ensures Span(a + t, digits) == |a|
  {
    if a == [] {
      assert a + t == t;
    } else {
      assert (a + t)[0] == a[0];
      assert (a + t)[1..] == a[1..] + t;
      SpanOver(a[1..], t, digits);
    }
  }

  /** Reading a built height back yields the number and the extension. */
  lemma ParseBuiltHeight(n: nat, ext: string)
    ensures ParseHeight(NatToString(n) + "p." + ext) == Some((n, ext))
  {
    var digits := NatToString(n);
    var rest := digits + "p." + ext;
    assert rest == digits + ("p." + ext);
    SpanOver(digits, "p." + ext, true);
    assert rest[|digits|..|digits| + 2] == "p.";
    assert rest[..|digits|] == digits;
    assert rest[|digits| + 2..] == ext;
    ParseNatRoundTrip(n);
  }

  /** Reading a built name back yields the pieces it was built from. */
  lemma ParseBuiltName(prefix: string, n: nat, ext: string)
    requires forall k :: 0 <= k < |prefix| ==> !IsDigit(prefix[k])
    ensures ParseFileName(prefix + NatToString(n) + "p." + ext) == Some(FileParts(prefix, n, ext))
  {
    var rest := NatToString(n) + "p." + ext;
    var name := prefix + rest;
    assert name == prefix + NatToString(n) + "p." + ext;
    assert IsDigit(rest[0]);
    SpanOver(prefix, rest, false);
    assert name[|prefix|..] == rest;
    assert name[..|prefix|] == prefix;
    ParseBuiltHeight(n, ext);
  }

  /**
   * A download name records the kind, the preset height and the platform's
   * extension, e.g. `video720p.webm` for video at md on a non-Safari browser.
   */
  lemma FileNameShape(kind: MediaKind, preset: Preset, safari: bool)
    ensures FileName(kind, preset, safari) == KindName(kind) + NatToString(Height(preset)) + "p." + Extension(safari)
  {
    MimeTypeParts(kind, safari);
  }

  /** A kind's name holds no digit, so the height is where its digits begin. */
  lemma KindNameHasNoDigit(kind: MediaKind)
    ensures forall k :: 0 <= k < |KindName(kind)| ==> !IsDigit(KindName(kind)[k])
  {
    match kind {
      case Video => assert KindName(kind) == "video";
      case Audio => assert KindName(kind) == "audio";
    }
  }

  /** Reading a download name back recovers the kind, the preset height and the extension. */
  lemma FileNameRoundTrip(kind: MediaKind, preset: Preset, safari: bool)
    ensures ParseFileName(FileName(kind, preset, safari))
         == Some(FileParts(KindName(kind), Height(preset), Extension(safari)))
  {
    FileNameShape(kind, preset, safari);
    KindNameHasNoDigit(kind);
    ParseBuiltName(KindName(kind), Height(preset), Extension(safari));
  }

  /** Different kind, preset or platform always give a different download name. */
  lemma FileNameInjective(k1: MediaKind, p1: Preset, s1: bool, k2: MediaKind, p2: Preset, s2: bool)
    ensures FileName(k1, p1, s1) == FileName(k2, p2, s2) <==> k1 == k2 && p1 == p2 && s1 == s2
  {
    if FileName(k1, p1, s1) == FileName(k2, p2, s2) {
      FileNameRoundTrip(k1, p1, s1);
      FileNameRoundTrip(k2, p2, s2);
      assert KindName(k1) == KindName(k2) && Height(p1) == Height(p2) && Extension(s1) == Extension(s2);
      PresetsIncrease(p1, p2);
    }
  }

  /** The md preset's height as the name spells it. */
  lemma MediumHeightDigits()
    ensures NatToString(Height(MD)) == "720"
  {
    assert Height(MD) == 720;
    assert 720 / 10 == 72 && 720 % 10 == 0 && 72 / 10 == 7 && 72 % 10 == 2;
    assert NatToString(72) == "72";
  }

  lemma FileNameExample()
    ensures FileName(Video, MD, false) == "video720p.webm"
  {
    MimeTypeParts(Video, false);
    MediumHeightDigits();
    assert "video" + "720" + "p." + "webm" == "video720p.webm";
  }
}
