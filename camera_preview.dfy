/**
  `PreviewViewModel` of the camera preview screen (the current generation):
  the preview state, its setters, the mapping of one detection box into
  preview pixels, and `updateDetections`.
 */
module CameraPreview {
  import opened Geometry
  import opened ObjectDetection
  import opened DetectionDisplay
  import opened BottomSheetScaffold

  /** `CameraSelector.LENS_FACING_BACK`. */
  const LensFacingBack: int := 1
  /** `CameraSelector.LENS_FACING_FRONT`. */
  const LensFacingFront: int := 0
  /** `Surface.ROTATION_0`. */
  const Rotation0: int := 0

  /** `IntSize(width, height)`. */
  datatype IntSize = IntSize(width: int, height: int)

  datatype CameraState = CameraState(
    rotation: int,
    lensFacing: int,
    maxCameraFramerate: int,
    imageRotationDegrees: int)

  datatype PreviewState = PreviewState(
    confidence: real,
    previewSize: IntSize,
    aspectRatioF: real,
    detections: seq<ObjectPrediction>,
    calculatedDetectionLocations: seq<DetectionLocation>,
    cameraState: CameraState,
    modelResolution: Resolution)

  /** The data class defaults: threshold 0.5, a 1080 x 1440 preview, back camera at rotation 0, 60 fps. */
  function DefaultPreviewState(): (s: PreviewState)
    ensures s.confidence == 0.5 && s.previewSize == IntSize(1080, 1440)
    ensures s.detections == [] && s.calculatedDetectionLocations == []
    ensures s.cameraState.lensFacing == LensFacingBack && s.cameraState.rotation == 0
    ensures s.cameraState.maxCameraFramerate == 60
  {
    PreviewState(0.5, IntSize(1080, 1440), 3.0 / 4.0, [], [],
                 CameraState(Rotation0, LensFacingBack, 60, 0), Resolution(0, 0))
  }

  /** Whether `mapOutputCoordinates` mirrors the box: back-facing differs from "rotation is 90 or 270". */
  function Mirrored(camera: CameraState): (m: bool)
    ensures m <==> (camera.lensFacing == LensFacingBack) != (camera.rotation == 90 || camera.rotation == 270)
  {
    ShouldMirror(camera.lensFacing == LensFacingBack, camera.rotation)
  }

  /** `mapOutputCoordinates`: scale, mirror when the camera state asks for it, then the 10% margin. */
  function MapOutputCoordinates(location: Rect, previewSize: IntSize, camera: CameraState): (r: Rect)
    ensures var w, h := previewSize.width as real, previewSize.height as real;
      && r.CenterX() == (if Mirrored(camera) then w - location.CenterX() * w else location.CenterX() * w)
      && r.CenterY() == (if Mirrored(camera) then h - location.CenterY() * h else location.CenterY() * h)
  {
    MapToPreview(location, previewSize.width, previewSize.height, Mirrored(camera))
  }

  /**
    With the defaults nothing ever sets `rotation`, which stays at
    `Surface.ROTATION_0`, so the back camera's boxes are always mirrored and a
    front camera's never are.
   */
  lemma DefaultRotationMirrorsBackCamera(camera: CameraState)
    requires camera.rotation == Rotation0
    ensures Mirrored(camera) <==> camera.lensFacing == LensFacingBack
  {
  }

  /** Switching from the back to the front camera at the same rotation mirrors every mapped box through the preview centre. */
  lemma {:induction false} SwitchingLensMirrors(location: Rect, previewSize: IntSize, camera: CameraState)
    requires camera.lensFacing == LensFacingBack
    ensures MapOutputCoordinates(location, previewSize, camera.(lensFacing := LensFacingFront))
         == Mirror(MapOutputCoordinates(location, previewSize, camera), previewSize.width, previewSize.height)
  {
    MapToPreviewMirrorSymmetry(location, previewSize.width, previewSize.height, Mirrored(camera));
  }

  /** Before the preview reports its size (0 x 0), every box maps to the empty rectangle at the origin. */
  lemma EmptyPreviewMapsToOrigin(location: Rect, previewSize: IntSize, camera: CameraState)
    requires previewSize.width == 0 && previewSize.height == 0
    ensures MapOutputCoordinates(location, previewSize, camera) == Rect(0.0, 0.0, 0.0, 0.0)
  {
    MapToPreviewEmptyPreview(location, previewSize.width, previewSize.height, Mirrored(camera));
  }

  /** The centred quarter box on the default 1080 x 1440 preview comes out 594 px wide and 648 px tall, centred at (540, 720). */
  lemma CentredBoxOnDefaultPreview(camera: CameraState)
    ensures var r := MapOutputCoordinates(Rect(0.25, 0.25, 0.75, 0.75), IntSize(1080, 1440), camera);
      r == Rect(243.0, 396.0, 837.0, 1044.0)
  {
  }

  class PreviewViewModel {
    var previewState: PreviewState

    constructor ()
      ensures previewState == DefaultPreviewState()
    {
      previewState := DefaultPreviewState();
    }

    /**
      `updateDetections`: keep the detections scored strictly above the
      confidence threshold, then rebuild the display list from the kept ones.
     */
    method UpdateDetections(detections: seq<ObjectPrediction>, toDp: real -> real, colorOf: nat -> Color)
      modifies this
      ensures previewState.detections == KeepConfident(detections, old(previewState.confidence))
      ensures previewState.calculatedDetectionLocations
           == DisplayLocations(previewState.detections,
                               old(previewState.previewSize.width), old(previewState.previewSize.height),
                               loc => MapOutputCoordinates(loc, old(previewState.previewSize), old(previewState.cameraState)),
                               toDp, colorOf)
      ensures previewState == old(previewState).(detections := previewState.detections,
                                                  calculatedDetectionLocations := previewState.calculatedDetectionLocations)
    {
      previewState := previewState.(detections := KeepConfident(detections, previewState.confidence));
      var size, camera := previewState.previewSize, previewState.cameraState;
      previewState := previewState.(calculatedDetectionLocations :=
        DisplayLocations(previewState.detections, size.width, size.height,
                         loc => MapOutputCoordinates(loc, size, camera), toDp, colorOf));
    }

    method UpdateConfidence(confidence: real)
      modifies this
      ensures previewState == old(previewState).(confidence := confidence)
    {
      previewState := previewState.(confidence := confidence);
    }

    method UpdateMaxCameraFrameRate(maxCameraFramerate: int)
      modifies this
      ensures previewState == old(previewState).(cameraState :=
        old(previewState.cameraState).(maxCameraFramerate := maxCameraFramerate))
    {
      previewState := previewState.(cameraState := previewState.cameraState.(maxCameraFramerate := maxCameraFramerate));
    }

    method UpdatePreviewSize(size: IntSize)
      modifies this
      ensures previewState == old(previewState).(previewSize := size)
    {
      previewState := previewState.(previewSize := size);
    }

    method UpdateResolution(resolution: Resolution)
      modifies this
      ensures previewState == old(previewState).(modelResolution := resolution)
    {
      previewState := previewState.(modelResolution := resolution);
    }
  }
}
