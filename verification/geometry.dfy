/**
 Integer geometry of the detection stage: the truncating conversion of the
 detector's float coordinates, the raw-box filter, the save gate, cropping,
 and the remapping of boxes found in a rotated frame back to the original
 frame.
 */
module Geometry {
  import opened Wrappers

  /**
   A raster as rows of pixel values. The model never looks at pixel values:
   images are only cropped and handed to the clarity score, the similarity
   test and OCR, which are external.
   */
  type Image = seq<seq<int>>

  /** `frame.shape[0]` and `frame.shape[1]`. */
  function Height(img: Image): nat {
    |img|
  }

  function Width(img: Image): nat {
    if |img| == 0 then 0 else |img[0]|
  }

  /** Every row has the width of the first one, as for a numpy frame. */
  ghost predicate Rectangular(img: Image) {
    forall i :: 0 <= i < |img| ==> |img[i]| == Width(img)
  }

  /** A box in pixel coordinates: corners (x1, y1) and (x2, y2). */
  datatype Box = Box(x1: int, y1: int, x2: int, y2: int)

  /** One row of `boxes.data`: float corners, confidence and class. */
  datatype RawBox = RawBox(x1: real, y1: real, x2: real, y2: real, conf: real, cls: real)

  /** Python's `int()` on a float: truncation toward zero. */
  function Trunc(x: real): (r: int)
    ensures 0.0 <= x ==> 0 <= r && r as real <= x < r as real + 1.0
    ensures x < 0.0 ==> r <= 0 && r as real - 1.0 < x <= r as real
  {
    if x >= 0.0 then x.Floor else -((-x).Floor)
  }

  lemma TruncMonotone(a: real, b: real)
    requires a <= b
    ensures Trunc(a) <= Trunc(b)
  {
  }

  function TruncBox(d: RawBox): Box {
    Box(Trunc(d.x1), Trunc(d.y1), Trunc(d.x2), Trunc(d.y2))
  }

  /** Non-empty and strictly inside a `w` x `h` frame. */
  predicate InsideFrame(b: Box, w: int, h: int) {
    0 <= b.x1 < b.x2 < w && 0 <= b.y1 < b.y2 < h
  }

  /** Inside the pixel grid `[0, w-1] x [0, h-1]`, corners in order. */
  predicate InCanvas(b: Box, w: int, h: int) {
    && 0 <= b.x1 < w && 0 <= b.x2 < w && 0 <= b.y1 < h && 0 <= b.y2 < h
    && b.x1 <= b.x2 && b.y1 <= b.y2
  }

  /**
   The raw-box filter of `process_detections`: a box below the confidence
   threshold is skipped, then its corners are truncated to integers and a
   box that is empty or reaches outside `[0, w-1] x [0, h-1]` is dropped.
   Rotated frames keep the original canvas, so `w` and `h` are always the
   original frame's.
   */
  function AcceptBox(d: RawBox, threshold: real, w: int, h: int): (r: Option<Box>)
    ensures r.Some? <==> threshold <= d.conf && InsideFrame(TruncBox(d), w, h)
    ensures r.Some? ==> r.value == TruncBox(d)
  {
    if d.conf < threshold then None
    else
      var b := TruncBox(d);
      if b.x1 >= b.x2 || b.y1 >= b.y2 || b.x1 < 0 || b.y1 < 0 || b.x2 >= w || b.y2 >= h then None
      else Some(b)
  }

  /**
   What an accepted box says about the detector's float corners: they are
   ordered, the far corner is inside the frame, and the near corner is
   above -1 (truncation maps a corner in (-1, 0) to 0).
   */
  lemma AcceptedRawCorners(d: RawBox, threshold: real, w: int, h: int)
    requires AcceptBox(d, threshold, w, h).Some?
    ensures -1.0 < d.x1 < d.x2 < w as real
    ensures -1.0 < d.y1 < d.y2 < h as real
  {
    if d.x2 <= d.x1 {
      TruncMonotone(d.x2, d.x1);
    }
    if d.y2 <= d.y1 {
      TruncMonotone(d.y2, d.y1);
    }
  }

  /** A corner slightly left of the frame truncates to 0 and is kept. */
  lemma NegativeFractionAccepted()
    ensures AcceptBox(RawBox(-0.5, 2.0, 10.0, 8.0, 0.9, 0.0), 0.5, 20, 20) == Some(Box(0, 2, 10, 8))
  {
  }

  /** Gates of the save step: lower confidence or clarity is never saved. */
  const MinClarity: real := 100.0
  const MinConfidence: real := 0.55

  predicate PassesSaveGate(conf: real, clarity: real) {
    conf >= MinConfidence && clarity >= MinClarity
  }

  /** numpy's `a[lo:hi]` for non-negative bounds: both ends are clipped to the length. */
  function Slice<T>(s: seq<T>, lo: nat, hi: nat): (r: seq<T>)
    ensures lo <= hi <= |s| ==> r == s[lo..hi]
    ensures lo <= |s| < hi ==> r == s[lo..]
    ensures |s| <= lo || hi <= lo ==> r == []
    ensures |r| <= |s|
  {
    var a := if lo < |s| then lo else |s|;
    var b := if hi < |s| then hi else |s|;
    if b <= a then [] else s[a..b]
  }

  /** `img[y1:y2, x1:x2]`: the rows `y1..y2`, each cut to the columns `x1..x2`. */
  function Crop(img: Image, b: Box): (r: Image)
    requires 0 <= b.x1 && 0 <= b.y1 && 0 <= b.x2 && 0 <= b.y2
    ensures Rectangular(img) && InsideFrame(b, Width(img), Height(img)) ==>
      && |r| == b.y2 - b.y1
      && forall i :: 0 <= i < |r| ==> r[i] == img[b.y1 + i][b.x1..b.x2]
  {
    var rows := Slice(img, b.y1, b.y2);
    seq(|rows|, i requires 0 <= i < |rows| => Slice(rows[i], b.x1, b.x2))
  }

  /** `max(0, min(hi, v))`. */
  function Clamp(v: int, hi: int): (r: int)
    ensures 0 <= hi ==> 0 <= r <= hi
    ensures 0 <= v <= hi ==> r == v
    ensures 0 <= hi && v < 0 ==> r == 0
    ensures 0 <= hi < v ==> r == hi
  {
    var m := if hi < v then hi else v;
    if m < 0 then 0 else m
  }

  lemma ClampMonotone(a: int, b: int, hi: int)
    requires a <= b
    ensures Clamp(a, hi) <= Clamp(b, hi)
  {
  }

  lemma ClampBoxKeepsOrder(u: Box, w: int, h: int)
    ensures u.x1 <= u.x2 ==> ClampBox(u, w, h).x1 <= ClampBox(u, w, h).x2
    ensures u.y1 <= u.y2 ==> ClampBox(u, w, h).y1 <= ClampBox(u, w, h).y2
  {
    if u.x1 <= u.x2 {
      ClampMonotone(u.x1, u.x2, w - 1);
    }
    if u.y1 <= u.y2 {
      ClampMonotone(u.y1, u.y2, h - 1);
    }
  }

  /** The angles other than 0 the detector is run at, in processing order. */
  const RotationAngles: seq<int> := [90, -90, 180]

  /**
   The per-angle closed forms that carry a box found in a frame rotated by
   `angle` back to the original `w` x `h` frame, before clamping. Any other
   angle has no closed form.
   */
  function Unrotate(angle: int, b: Box, w: int, h: int): Option<Box> {
    if angle == 90 then Some(Box(b.y1, w - b.x2, b.y2, w - b.x1))
    else if angle == -90 then Some(Box(h - b.y2, b.x1, h - b.y1, b.x2))
    else if angle == 180 then Some(Box(w - b.x2, h - b.y2, w - b.x1, h - b.y1))
    else None
  }

  function ClampBox(b: Box, w: int, h: int): Box {
    Box(Clamp(b.x1, w - 1), Clamp(b.y1, h - 1), Clamp(b.x2, w - 1), Clamp(b.y2, h - 1))
  }

  /**
   The remap of a rotated detection's coordinates: the closed form for the
   angle, clamped into the frame; a box for any other angle keeps its
   coordinates (the source's `continue`).
   */
  function Remap(angle: int, b: Box, w: int, h: int): (r: Box)
    ensures Unrotate(angle, b, w, h).None? ==> r == b
    ensures Unrotate(angle, b, w, h).Some? ==> r == ClampBox(Unrotate(angle, b, w, h).value, w, h)
    ensures Unrotate(angle, b, w, h).Some? && 1 <= w && 1 <= h && b.x1 < b.x2 && b.y1 < b.y2 ==>
      InCanvas(r, w, h)
    ensures Unrotate(angle, b, w, h).Some? && 1 <= w && 1 <= h ==>
      0 <= r.x1 < w && 0 <= r.x2 < w && 0 <= r.y1 < h && 0 <= r.y2 < h
    ensures Unrotate(angle, b, w, h).Some? && InCanvas(Unrotate(angle, b, w, h).value, w, h) ==>
      r == Unrotate(angle, b, w, h).value
  {
    match Unrotate(angle, b, w, h)
    case None => b
    case Some(u) =>
      ClampBoxKeepsOrder(u, w, h);
      ClampBox(u, w, h)
  }

  /** The half-turn closed form undoes itself. */
  lemma HalfTurnInvolution(b: Box, w: int, h: int)
    ensures Unrotate(180, Unrotate(180, b, w, h).value, w, h) == Some(b)
  {
  }

  /**
   The quarter-turn closed forms do not undo each other unless the frame is
   square: following the 90 form by the -90 form shifts x by `h - w`.
   */
  lemma QuarterTurnsCompose(b: Box, w: int, h: int)
    ensures Unrotate(-90, Unrotate(90, b, w, h).value, w, h)
         == Some(Box(h - w + b.x1, b.y1, h - w + b.x2, b.y2))
    ensures Unrotate(-90, Unrotate(90, b, w, h).value, w, h) == Some(b) <==> w == h
  {
  }

  /**
   For a box the filter accepts, remapping twice at 180 degrees gives the box
   back exactly when it does not touch the top or left border; a corner on
   row or column 0 lands on `w` or `h` and is clamped.
   */
  lemma HalfTurnRemapRoundTrip(b: Box, w: int, h: int)
    requires InsideFrame(b, w, h)
    ensures Remap(180, Remap(180, b, w, h), w, h) == b <==> 1 <= b.x1 && 1 <= b.y1
  {
    var once := Remap(180, b, w, h);
    if 1 <= b.x1 && 1 <= b.y1 {
      assert once == Box(w - b.x2, h - b.y2, w - b.x1, h - b.y1);
    } else if b.x1 == 0 {
      assert once.x2 == w - 1;
    } else {
      assert once.y2 == h - 1;
    }
  }
}
