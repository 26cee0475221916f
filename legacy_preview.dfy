/**
  The earlier `PreviewViewModel` at the package root: its own preview state
  (with an fps field and a simpler camera state), the once-per-second fps
  counter, `updateDetections`, and a `mapOutputCoordinates` that carries a
  horizontal offset experiment which is switched off before use.
 */
module LegacyPreview {
  import opened Geometry
  import opened ObjectDetection
  import opened DetectionDisplay
  import opened BottomSheetScaffold
  import CameraPreview

  datatype CameraState = CameraState(lensFacing: int, imageRotationDegrees: int)

  datatype PreviewState = PreviewState(
    fps: int,
    confidence: real,
    previewSize: CameraPreview.IntSize,
    aspectRatio: int,
    aspectRatioF: real,
    detections: seq<ObjectPrediction>,
    calculatedDetectionLocations: seq<DetectionLocation>,
    cameraState: CameraState,
    modelResolution: Resolution)

  /** The data class defaults: fps 0, threshold 0.5, a square 1080 x 1080 preview, back camera at 0 degrees. */
  function DefaultPreviewState(): (s: PreviewState)
    ensures s.fps == 0 && s.confidence == 0.5
    ensures s.previewSize == CameraPreview.IntSize(1080, 1080)
    ensures s.detections == [] && s.calculatedDetectionLocations == []
    ensures s.cameraState == CameraState(CameraPreview.LensFacingBack, 0)
  {
    PreviewState(0, 0.5, CameraPreview.IntSize(1080, 1080), 1, 1.0, [], [],
                 CameraState(CameraPreview.LensFacingBack, 0), Resolution(0, 0))
  }

  /**
    The scaling step of this generation's `mapOutputCoordinates`: a horizontal
    offset factor is first computed from the box centre (at most 16% either
    way) and then overwritten with 1 before it multiplies left and right, so
    the step is the plain scaling.
   */
  function OffsetScale(location: Rect, width: int, height: int): (r: Rect)
    ensures r == Scale(location, width, height)
  {
    var w, h := width as real, height as real;
    var maxOffsetRatio := 16.0 / 100.0;
    var unusedOffsetX := 1.0 - ((location.CenterX() - 0.5) * 2.0) * maxOffsetRatio;
    var offsetX := 1.0;
    assert location.left * offsetX * w == location.left * w;
    assert location.right * offsetX * w == location.right * w;
    Rect(location.left * offsetX * w, location.top * h, location.right * offsetX * w, location.bottom * h)
  }

  /**
    `mapOutputCoordinates` as this generation writes it: the offset scaling,
    the mirror under a condition that reads `imageRotationDegrees`, a portrait
    rectangle `giga` that is computed and never used, and the margin step.
   */
  function MapOutputCoordinates(location: Rect, previewSize: CameraPreview.IntSize, camera: CameraState): (r: Rect)
    ensures var w, h := previewSize.width as real, previewSize.height as real;
      var mirrored := ShouldMirror(camera.lensFacing == CameraPreview.LensFacingBack, camera.imageRotationDegrees);
      && r.CenterX() == (if mirrored then w - location.CenterX() * w else location.CenterX() * w)
      && r.CenterY() == (if mirrored then h - location.CenterY() * h else location.CenterY() * h)
  {
    var width, height := previewSize.width, previewSize.height;
    var previewLocation := OffsetScale(location, width, height);
    var isBackFacing := camera.lensFacing == CameraPreview.LensFacingBack;
    var rotated :=
      if ShouldMirror(isBackFacing, camera.imageRotationDegrees) then Mirror(previewLocation, width, height)
      else previewLocation;
    var midX, midY := rotated.CenterX(), rotated.CenterY();
    var unusedGiga := Rect(midX - Widen * rotated.Width() / 2.0, midY - Narrow * rotated.Height() / 2.0,
                           midX + Widen * rotated.Width() / 2.0, midY + Narrow * rotated.Height() / 2.0);
    ApplyMargin(rotated, width, height)
  }

  /**
    The earlier mapping is the three-step mapping of the current generation, with
    `imageRotationDegrees` in the part of `rotation` in the mirror condition.
   */
  lemma AgreesWithCurrentMapping(location: Rect, previewSize: CameraPreview.IntSize,
                                 camera: CameraState, current: CameraPreview.CameraState)
    requires current.lensFacing == camera.lensFacing && current.rotation == camera.imageRotationDegrees
    ensures MapOutputCoordinates(location, previewSize, camera)
         == CameraPreview.MapOutputCoordinates(location, previewSize, current)
  {
  }

  class PreviewViewModel {
    var previewState: PreviewState
    /** The `fpsCounter` LiveData: frames counted since the last once-per-second tick. */
    var fpsCounter: int

    constructor ()
      ensures previewState == DefaultPreviewState() && fpsCounter == 0
    {
      previewState := DefaultPreviewState();
      fpsCounter := 0;
    }

    /** `updateDetections`: the same filter and display list as the current generation, with this generation's mapping. */
    method UpdateDetections(detections: seq<ObjectPrediction>, toDp: real -> real, colorOf: nat -> Color)
      modifies this
      ensures previewState.detections == KeepConfident(detections, old(previewState.confidence))
      ensures previewState.calculatedDetectionLocations
           == DisplayLocations(previewState.detections,
                               old(previewState.previewSize.width), old(previewState.previewSize.height),
                               loc => MapOutputCoordinates(loc, old(previewState.previewSize), old(previewState.cameraState)),
                               toDp, colorOf)
      ensures previewState == old(previewState).(detections := previewState.detections,
                                                  calculatedDetectionLocations := previewState.calculatedDetectionLocations)
      ensures fpsCounter == old(fpsCounter)
    {
      previewState := previewState.(detections := KeepConfident(detections, previewState.confidence));
      var size, camera := previewState.previewSize, previewState.cameraState;
      previewState := previewState.(calculatedDetectionLocations :=
        DisplayLocations(previewState.detections, size.width, size.height,
                         loc => MapOutputCoordinates(loc, size, camera), toDp, colorOf));
    }

    /** One iteration of the `startFpsCounter` loop: publish the frame count as fps, then restart the count. */
    method FpsTick()
      modifies this
      ensures previewState == old(previewState).(fps := old(fpsCounter))
      ensures fpsCounter == 0
    {
      previewState := previewState.(fps := fpsCounter);
      fpsCounter := 0;
    }

    method IncrementFpsCounter()
      modifies this
      ensures fpsCounter == old(fpsCounter) + 1
      ensures previewState == old(previewState)
    {
      fpsCounter := fpsCounter + 1;
    }

    method StopFpsCounter()
      modifies this
      ensures fpsCounter == 0
      ensures previewState == old(previewState).(fps := 0)
    {
      fpsCounter := 0;
      previewState := previewState.(fps := 0);
    }

    method UpdatePreviewSize(size: CameraPreview.IntSize)
      modifies this
      ensures previewState == old(previewState).(previewSize := size)
      ensures fpsCounter == old(fpsCounter)
    {
      previewState := previewState.(previewSize := size);
    }

    method UpdateResolution(resolution: Resolution)
      modifies this
      ensures previewState == old(previewState).(modelResolution := resolution)
      ensures fpsCounter == old(fpsCounter)
    {
      previewState := previewState.(modelResolution := resolution);
    }
  }

  /** Frames counted between two ticks are exactly what the second tick publishes. */
  method TickPublishesFramesSinceLastTick(vm: PreviewViewModel, frames: nat)
    modifies vm
    ensures vm.previewState.fps == frames && vm.fpsCounter == 0
  {
    vm.FpsTick();
    var i := 0;
    while i < frames
      invariant 0 <= i <= frames
      invariant vm.fpsCounter == i
    {
      vm.IncrementFpsCounter();
      i := i + 1;
    }
    vm.FpsTick();
  }
}
