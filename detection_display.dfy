/**
  What both generations of `PreviewViewModel.updateDetections` do around the
  coordinate mapping: keep the detections whose score is strictly above the
  confidence threshold, and turn each kept one into a `DetectionLocation`
  whose width and height are clamped to the preview size before the pixel to
  dp conversion. The conversion (`convertPixelsToDp`) and the random colour
  are supplied by the caller as functions.
 */
module DetectionDisplay {
  import opened Geometry
  import opened ObjectDetection

  /** `Color(red, green, blue)`. */
  datatype Color = Color(red: int, green: int, blue: int)

  /** `DetectionLocation`; margins and sizes are in dp, the location in pixels. */
  datatype DetectionLocation = DetectionLocation(
    color: Color,
    location: Rect,
    topMargin: real,
    leftMargin: real,
    width: real,
    height: real,
    labelName: string,
    score: real)

  /** `detections.filter { it.score > confidence }`. */
  function KeepConfident(detections: seq<ObjectPrediction>, confidence: real): (kept: seq<ObjectPrediction>)
    ensures |kept| <= |detections|
    ensures forall i :: 0 <= i < |kept| ==> kept[i].score > confidence
    ensures forall d :: d in kept ==> d in detections
    ensures forall d :: d in detections && d.score > confidence ==> d in kept
    ensures multiset(kept) <= multiset(detections)
  {
    if detections == [] then []
    else
      var rest := KeepConfident(detections[1..], confidence);
      assert detections == [detections[0]] + detections[1..];
      if detections[0].score > confidence then [detections[0]] + rest else rest
  }

  /**
    Each confident detection is kept as many times as it occurs, and every
    other one not at all.
   */
  lemma {:induction false} KeepConfidentMultiplicity(detections: seq<ObjectPrediction>, confidence: real)
    ensures forall d :: multiset(KeepConfident(detections, confidence))[d]
                        == if d.score > confidence then multiset(detections)[d] else 0
  {
    if detections != [] {
      var rest := detections[1..];
      KeepConfidentMultiplicity(rest, confidence);
      assert detections == [detections[0]] + rest;
      assert multiset(detections) == multiset{detections[0]} + multiset(rest);
      if detections[0].score > confidence {
        var kept := KeepConfident(rest, confidence);
        assert multiset([detections[0]] + kept) == multiset{detections[0]} + multiset(kept);
      }
    }
  }

  /** Filtering distributes over concatenation, so the kept detections stay in their original order. */
  lemma {:induction false} KeepConfidentAppend(a: seq<ObjectPrediction>, b: seq<ObjectPrediction>, confidence: real)
    ensures KeepConfident(a + b, confidence) == KeepConfident(a, confidence) + KeepConfident(b, confidence)
  {
    if a != [] {
      assert (a + b)[1..] == a[1..] + b;
      KeepConfidentAppend(a[1..], b, confidence);
    } else {
      assert a + b == b;
    }
  }

  /** Nothing is dropped when every score is above the threshold, and nothing kept when none is. */
  lemma {:induction false} KeepConfidentExtremes(detections: seq<ObjectPrediction>, confidence: real)
    ensures (forall i :: 0 <= i < |detections| ==> detections[i].score > confidence)
            ==> KeepConfident(detections, confidence) == detections
    ensures (forall i :: 0 <= i < |detections| ==> detections[i].score <= confidence)
            ==> KeepConfident(detections, confidence) == []
  {
    if detections != [] {
      KeepConfidentExtremes(detections[1..], confidence);
      assert forall i :: 1 <= i < |detections| ==> detections[1..][i - 1] == detections[i];
    }
  }

  /** `min(limit.toFloat(), extent)`: an extent capped at the preview dimension. */
  function Clamped(limit: int, extent: real): (r: real)
    ensures r <= limit as real && r <= extent
    ensures r == limit as real || r == extent
  {
    if limit as real <= extent then limit as real else extent
  }

  /**
    The `calculatedDetectionLocations` list: one entry per kept detection, in
    order, with the mapped location, dp margins, clamped dp size, and label and
    score carried through. The ensures is the per-element specification of
    this `map`; the bound on the dp size comes from `Clamped`'s own contract.
   */
  function DisplayLocations(kept: seq<ObjectPrediction>, width: int, height: int,
                            mapLocation: Rect -> Rect, toDp: real -> real,
                            colorOf: nat -> Color): (locs: seq<DetectionLocation>)
    ensures |locs| == |kept|
    ensures forall i :: 0 <= i < |kept| ==>
      var loc := mapLocation(kept[i].location);
      && locs[i].location == loc
      && locs[i].labelName == kept[i].labelName
      && locs[i].score == kept[i].score
      && locs[i].color == colorOf(i)
      && locs[i].topMargin == toDp(loc.top)
      && locs[i].leftMargin == toDp(loc.left)
      && locs[i].width == toDp(Clamped(width, loc.Width()))
      && locs[i].height == toDp(Clamped(height, loc.Height()))
  {
    seq(|kept|, i requires 0 <= i < |kept| =>
      var loc := mapLocation(kept[i].location);
      DetectionLocation(
        colorOf(i), loc, toDp(loc.top), toDp(loc.left),
        toDp(Clamped(width, loc.Width())), toDp(Clamped(height, loc.Height())),
        kept[i].labelName, kept[i].score))
  }
}
