/** The integer crop-window and clamping arithmetic of the two video modules
    (backend/modules/content.py and modules/content.py). Frame sizes are pixel
    counts; times are seconds. Python's `//` on non-negative operands is Dafny's
    `/`; `int(9 * h / 16)` on a non-negative size is the floor, i.e. `9 * h / 16`. */
module CropMath {
  import opened Text
  import opened Wrappers

  function Min(a: int, b: int): int { if a <= b then a else b }
  function Max(a: int, b: int): int { if a >= b then a else b }
  function MinR(a: real, b: real): real { if a <= b then a else b }
  function MaxR(a: real, b: real): real { if a >= b then a else b }

  /** The clip window a short is cut from: the start is pulled into
      [0, duration - 1] and the end is at least one second after it. */
  function ClampShortWindow(start: real, end: real, clipDuration: real): (r: (real, real))
    ensures r.0 >= 0.0 && r.1 >= r.0 + 1.0
    ensures clipDuration >= 1.0 ==> r.0 <= clipDuration - 1.0 && r.1 <= clipDuration
    ensures clipDuration < 1.0 ==> r.0 == 0.0 && r.1 >= 1.0 > clipDuration
    // a request that already lies inside the clip is left as it is
    ensures 0.0 <= start <= clipDuration - 1.0 && start + 1.0 <= end <= clipDuration ==> r == (start, end)
  {
    var s := MaxR(0.0, MinR(start, clipDuration - 1.0));
    (s, MaxR(s + 1.0, MinR(end, clipDuration)))
  }

  /** Clamping twice is clamping once. */
  lemma ClampShortWindowIdempotent(start: real, end: real, clipDuration: real)
    requires clipDuration >= 1.0
    ensures var r := ClampShortWindow(start, end, clipDuration);
      ClampShortWindow(r.0, r.1, clipDuration) == r
  {
  }

  /** The clip window an ad is cut from: same start rule, and the end is the
      requested length after it, cut at the end of the clip. */
  function ClampAdWindow(start: real, duration: real, clipDuration: real): (r: (real, real))
    ensures r.0 >= 0.0 && r.1 <= clipDuration
    ensures r.1 - r.0 <= duration
    ensures clipDuration >= 1.0 ==> r.0 <= clipDuration - 1.0
    ensures duration >= 0.0 && clipDuration >= 0.0 ==> r.0 <= r.1
    ensures 0.0 <= start <= clipDuration - 1.0 && start + duration <= clipDuration ==> r == (start, start + duration)
  {
    var s := MaxR(0.0, MinR(start, clipDuration - 1.0));
    (s, MinR(s + duration, clipDuration))
  }

  /** int(9 * n / 16), the one size rule of both aspect ratios: the width of a
      9:16 frame of height n, and the height of a 16:9 frame of width n. */
  function NineSixteenths(n: nat): (r: nat)
    ensures 16 * r <= 9 * n < 16 * r + 16
  {
    9 * n / 16
  }

  /** A horizontal crop [left, right) of a frame of width w. */
  datatype Span = Span(lo: int, hi: int)

  predicate Inside(s: Span, extent: nat) { 0 <= s.lo <= s.hi <= extent }

  /** The centre crop of modules/content.py (create_youtube_short's crop and
      get_cropped_frame, generate_thumbnail): [w/2 - tw/2, w/2 + tw/2] cut to the frame. */
  function CenterCrop(w: nat, tw: nat): (s: Span)
    ensures Inside(s, w)
    ensures s.hi - s.lo <= tw
    // when the target fits, the window is the full (even-rounded) target width
    ensures tw <= w ==> s.lo == w / 2 - tw / 2 && s.hi - s.lo == 2 * (tw / 2)
    // when it does not, the window is the whole frame
    ensures tw >= w + 1 ==> s.lo == 0 && s.hi == w
  {
    Span(Max(0, w / 2 - tw / 2), Min(w, w / 2 + tw / 2))
  }

  /** The FFmpeg fallback crop of both create_youtube_short functions:
      crop=<width>:<h>:<left>:0 with width = min(tw, w - left). */
  function FfmpegCenterCrop(w: nat, tw: nat): (r: (int, int))
    ensures var (left, width) := r; 0 <= left && 0 <= width <= tw && left + width <= w
    ensures tw <= w ==> r.1 == tw
  {
    var left := Max(0, w / 2 - tw / 2);
    (left, Min(tw, w - left))
  }

  /** FFmpeg's crop filter argument "crop=w:h:x:y". */
  function CropFilter(width: int, height: int, x: int, y: int): string {
    "crop=" + IntToString(width) + ":" + IntToString(height) + ":" + IntToString(x) + ":" + IntToString(y)
  }

  /** The content-aware window of backend create_youtube_short, given the
      horizontal extent [contentLeft, contentRight] of the detected content.
      `Delegate` stands for handing the frame to the background-extension renderer, which
      happens only for content wider than the target in that mode. */
  datatype SmartCrop = Delegate | Crop(span: Span)

  function SmartCropWindow(w: nat, tw: nat, contentLeft: int, contentRight: int, backgroundExtension: bool): (r: SmartCrop)
    requires 0 <= contentLeft <= contentRight <= w
    ensures r.Delegate? <==> contentRight - contentLeft > tw && backgroundExtension
    ensures r.Crop? && tw <= w ==> Inside(r.span, w)
    // content that fits is shown in a window of exactly the target width
    ensures r.Crop? && tw <= w && contentRight - contentLeft <= tw ==> r.span.hi - r.span.lo == tw
    ensures r.Crop? && contentRight - contentLeft > tw ==> Inside(r.span, w) && r.span.hi - r.span.lo <= tw
  {
    var width := contentRight - contentLeft;
    var center := contentLeft + width / 2;
    if width <= tw then
      var left := Max(0, center - tw / 2);
      var right := Min(w, left + tw);
      if left == 0 then Crop(Span(left, tw))
      else if right == w then Crop(Span(w - tw, right))
      else Crop(Span(left, right))
    else if backgroundExtension then Delegate
    else
      var left := Max(0, center - tw / 2);
      Crop(Span(left, Min(w, left + tw)))
  }

  /** The square box of modules/content.py create_ad_video for display ads:
      side = min(w, h), centred at (w/2, h/2). */
  datatype Box = Box(x1: int, y1: int, x2: int, y2: int)

  function SquareBox(w: nat, h: nat): (b: Box)
    ensures 0 <= b.x1 <= b.x2 <= w && 0 <= b.y1 <= b.y2 <= h
    ensures b.x2 - b.x1 == b.y2 - b.y1 == 2 * (Min(w, h) / 2)
    ensures Min(w, h) - 1 <= b.x2 - b.x1 <= Min(w, h)
  {
    var size := Min(w, h);
    Box(w / 2 - size / 2, h / 2 - size / 2, w / 2 + size / 2, h / 2 + size / 2)
  }

  /** The square FFmpeg crop of backend create_ad_video:
      crop=size:size:(w/2 - size/2):(h/2 - size/2). */
  function SquareFfmpegCrop(w: nat, h: nat): (r: (nat, int, int))
    ensures var (size, x, y) := r;
      size == Min(w, h) && 0 <= x && x + size <= w && 0 <= y && y + size <= h
  {
    var size := Min(w, h);
    (size, w / 2 - size / 2, h / 2 - size / 2)
  }

  /** The manual square frame cut of backend create_ad_video:
      frame[(h-size)/2 : +size, (w-size)/2 : +size]. */
  function SquareFrameCut(w: nat, h: nat): (r: (int, int))
    ensures var (x, y) := r; 0 <= x && x + Min(w, h) <= w && 0 <= y && y + Min(w, h) <= h
  {
    var size := Min(w, h);
    ((w - size) / 2, (h - size) / 2)
  }

  /** The 16:9 treatment for YouTube and Performance Max ads (modules/content.py):
      crop the height to int(9w/16) around the centre when the frame is taller,
      otherwise resize to that height. */
  datatype WideFormat = CropHeight(y1: int, y2: int) | ResizeTo(height: nat)

  function WideFormatFor(w: nat, h: nat): (r: WideFormat)
    ensures r.CropHeight? <==> h > NineSixteenths(w)
    ensures r.CropHeight? ==> 0 <= r.y1 <= r.y2 <= h && r.y2 - r.y1 == 2 * (NineSixteenths(w) / 2)
    ensures r.ResizeTo? ==> r.height == NineSixteenths(w)
  {
    var th := NineSixteenths(w);
    if h > th then CropHeight(h / 2 - th / 2, h / 2 + th / 2) else ResizeTo(th)
  }

  /** The FFmpeg 16:9 crop of backend create_ad_video, used when h > th:
      crop=w:th:0:(h/2 - th/2). */
  function WideFfmpegOffset(w: nat, h: nat): (y: int)
    requires h > NineSixteenths(w)
    ensures 0 <= y && y + NineSixteenths(w) <= h
  {
    h / 2 - NineSixteenths(w) / 2
  }

  /** The manual 16:9 frame cut of backend create_ad_video: rows
      [max(0, h/2 - th/2), min(h, y1 + th)). */
  function WideFrameCut(w: nat, h: nat): (s: Span)
    ensures Inside(s, h) && s.hi - s.lo <= NineSixteenths(w)
    ensures h > NineSixteenths(w) ==> s.hi - s.lo == NineSixteenths(w)
  {
    var th := NineSixteenths(w);
    var y1 := Max(0, h / 2 - th / 2);
    Span(y1, Min(h, y1 + th))
  }

  /** The thumbnail crop of modules/content.py generate_thumbnail: only a frame
      wider than int(9 * height / 16) is cropped, to the centre window. */
  function ThumbnailCrop(width: nat, height: nat): (r: Span)
    ensures Inside(r, width)
    ensures width <= NineSixteenths(height) ==> r == Span(0, width)
    ensures width > NineSixteenths(height) ==>
      r == CenterCrop(width, NineSixteenths(height)) && r.hi - r.lo == 2 * (NineSixteenths(height) / 2)
  {
    var tw := NineSixteenths(height);
    if width > tw then CenterCrop(width, tw) else Span(0, width)
  }

  /** The thumbnail crop of backend generate_thumbnail: a window of the target
      width around the detected content (with its edge adjustment), or around
      the centre when no content was detected; applied only when the frame is
      wider than the target. `content` is the detected [left, right] extent. */
  function BackendThumbnailCrop(width: nat, height: nat, content: Option<(int, int)>): (r: Span)
    requires content.Some? ==> 0 <= content.value.0 <= content.value.1 <= width
    ensures Inside(r, width)
    ensures width <= NineSixteenths(height) ==> r == Span(0, width)
    ensures width > NineSixteenths(height) ==> r.hi - r.lo == NineSixteenths(height)
  {
    var tw := NineSixteenths(height);
    var window :=
      match content
      case Some((cl, cr)) =>
        var center := cl + (cr - cl) / 2;
        var left := Max(0, center - tw / 2);
        var right := Min(width, left + tw);
        if left == 0 then Span(left, Min(width, tw))
        else if right == width then Span(Max(0, width - tw), right)
        else Span(left, right)
      case None =>
        var left := Max(0, width / 2 - tw / 2);
        Span(left, Min(width, left + tw));
    if width > tw then window else Span(0, width)
  }
}
