/**
  Rectangles in the sense of `android.graphics.RectF` and the three steps that
  take a detection box from the model's normalised space to preview pixels:
  scaling by the preview size, the conditional mirror, and the 10% margin
  about the centre. Coordinates are `real`: Float rounding is not modelled.
 */
module Geometry {

  /** `RectF(left, top, right, bottom)`; nothing forces right >= left or bottom >= top. */
  datatype Rect = Rect(left: real, top: real, right: real, bottom: real)
  {
    function Width(): real { right - left }
    function Height(): real { bottom - top }
    function CenterX(): real { (left + right) / 2.0 }
    function CenterY(): real { (top + bottom) / 2.0 }
  }

  /** The rectangle with the given centre and size. */
  function Centred(cx: real, cy: real, w: real, h: real): (r: Rect)
    ensures r.CenterX() == cx && r.CenterY() == cy
    ensures r.Width() == w && r.Height() == h
  {
    Rect(cx - w / 2.0, cy - h / 2.0, cx + w / 2.0, cy + h / 2.0)
  }

  /** A rectangle is determined by its centre and its size. */
  lemma CentreAndSizeDetermine(r: Rect, s: Rect)
    requires r.CenterX() == s.CenterX() && r.CenterY() == s.CenterY()
    requires r.Width() == s.Width() && r.Height() == s.Height()
    ensures r == s
  {
  }

  /** Step 1: left and right are multiplied by the preview width, top and bottom by its height. */
  function Scale(loc: Rect, width: int, height: int): (r: Rect)
    ensures r.Width() == loc.Width() * width as real
    ensures r.Height() == loc.Height() * height as real
    ensures r.CenterX() == loc.CenterX() * width as real
    ensures r.CenterY() == loc.CenterY() * height as real
  {
    Rect(loc.left * width as real, loc.top * height as real,
         loc.right * width as real, loc.bottom * height as real)
  }

  /** A rotation of 90 or 270 degrees, compared literally. */
  predicate IsFlippedOrientation(rotation: int)
  {
    rotation == 90 || rotation == 270
  }

  /** The mirror condition as the view model writes it: front-facing and flipped, or back-facing and not flipped. */
  function ShouldMirror(isBackFacing: bool, rotation: int): (m: bool)
    ensures m <==> isBackFacing != IsFlippedOrientation(rotation)
  {
    (!isBackFacing && IsFlippedOrientation(rotation)) || (isBackFacing && !IsFlippedOrientation(rotation))
  }

  /** Step 2: the point reflection through the centre of a width x height preview. */
  function Mirror(r: Rect, width: int, height: int): (m: Rect)
    ensures m.Width() == r.Width() && m.Height() == r.Height()
    ensures m.CenterX() == width as real - r.CenterX()
    ensures m.CenterY() == height as real - r.CenterY()
  {
    Rect(width as real - r.right, height as real - r.bottom,
         width as real - r.left, height as real - r.top)
  }

  /** Mirroring twice gives back the rectangle. */
  lemma MirrorInvolutive(r: Rect, width: int, height: int)
    ensures Mirror(Mirror(r, width, height), width, height) == r
  {
  }

  /** The widening factor (1 + margin) * requestedRatio with margin 0.1 and ratio 1. */
  const Widen: real := 11.0 / 10.0
  /** The narrowing factor (1 - margin) with margin 0.1. */
  const Narrow: real := 9.0 / 10.0

  /**
    Step 3: keep the centre, and on a portrait preview (width < height) widen the
    box by 10% and make it 10% shorter; otherwise, square previews included,
    make it 10% narrower and widen it vertically by 10%.
   */
  function ApplyMargin(r: Rect, width: int, height: int): (m: Rect)
    ensures m.CenterX() == r.CenterX() && m.CenterY() == r.CenterY()
    ensures width < height ==> m.Width() == Widen * r.Width() && m.Height() == Narrow * r.Height()
    ensures width >= height ==> m.Width() == Narrow * r.Width() && m.Height() == Widen * r.Height()
  {
    if width < height then Centred(r.CenterX(), r.CenterY(), Widen * r.Width(), Narrow * r.Height())
    else Centred(r.CenterX(), r.CenterY(), Narrow * r.Width(), Widen * r.Height())
  }

  /** The margin step and the mirror commute: the margin sees only the centre and the size. */
  lemma MarginCommutesWithMirror(r: Rect, width: int, height: int)
    ensures ApplyMargin(Mirror(r, width, height), width, height)
         == Mirror(ApplyMargin(r, width, height), width, height)
  {
    var a := ApplyMargin(Mirror(r, width, height), width, height);
    var b := Mirror(ApplyMargin(r, width, height), width, height);
    CentreAndSizeDetermine(a, b);
  }

  /**
    The whole mapping of one normalised box into preview pixels, given the
    preview size and whether the mirror applies.
   */
  function MapToPreview(loc: Rect, width: int, height: int, mirrored: bool): (r: Rect)
    ensures r.CenterX() == (if mirrored then width as real - loc.CenterX() * width as real
                            else loc.CenterX() * width as real)
    ensures r.CenterY() == (if mirrored then height as real - loc.CenterY() * height as real
                            else loc.CenterY() * height as real)
  {
    var scaled := Scale(loc, width, height);
    var rotated := if mirrored then Mirror(scaled, width, height) else scaled;
    ApplyMargin(rotated, width, height)
  }

  /** The mapped box has the scaled size, widened and narrowed by the margin step as the preview's orientation decides. */
  lemma MapToPreviewSize(loc: Rect, width: int, height: int, mirrored: bool)
    ensures var r := MapToPreview(loc, width, height, mirrored);
      && (width < height ==> r.Width() == Widen * (loc.Width() * width as real)
                             && r.Height() == Narrow * (loc.Height() * height as real))
      && (width >= height ==> r.Width() == Narrow * (loc.Width() * width as real)
                              && r.Height() == Widen * (loc.Height() * height as real))
  {
    var scaled := Scale(loc, width, height);
    var rotated := if mirrored then Mirror(scaled, width, height) else scaled;
    assert rotated.Width() == loc.Width() * width as real;
    assert rotated.Height() == loc.Height() * height as real;
  }

  /** An empty (0 x 0) preview maps every box to the empty rectangle at the origin. */
  lemma MapToPreviewEmptyPreview(loc: Rect, width: int, height: int, mirrored: bool)
    requires width == 0 && height == 0
    ensures MapToPreview(loc, width, height, mirrored) == Rect(0.0, 0.0, 0.0, 0.0)
  {
    var scaled := Scale(loc, width, height);
    var rotated := if mirrored then Mirror(scaled, width, height) else scaled;
    assert rotated.left == 0.0 && rotated.right == 0.0 && rotated.top == 0.0 && rotated.bottom == 0.0;
    MarginOfEmpty(rotated, width, height);
  }

  /** The margin step leaves the empty rectangle at the origin where it is. */
  lemma MarginOfEmpty(r: Rect, width: int, height: int)
    requires r.left == 0.0 && r.right == 0.0 && r.top == 0.0 && r.bottom == 0.0
    ensures ApplyMargin(r, width, height) == r
  {
  }

  /** Toggling the mirror condition yields the mirror image of the mapped box. */
  lemma MapToPreviewMirrorSymmetry(loc: Rect, width: int, height: int, mirrored: bool)
    ensures MapToPreview(loc, width, height, !mirrored)
         == Mirror(MapToPreview(loc, width, height, mirrored), width, height)
  {
    var scaled := Scale(loc, width, height);
    MarginCommutesWithMirror(scaled, width, height);
    MirrorInvolutive(scaled, width, height);
    if mirrored {
      MarginCommutesWithMirror(Mirror(scaled, width, height), width, height);
    }
  }
}
