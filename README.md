# TfObjectDetection for Jetpack Compose: a Dafny model of its core

This Android camera demo runs an SSD MobileNet detector on camera frames, draws
the detected boxes over the preview, and measures how fast it runs. The
project models the logic behind that, file by file:

- **Decoding model output** (`ObjectDetection`). The three SSD output buffers
  become `ObjectCount` (10) predictions. Each `[top, left, bottom, right]` row
  is reordered into a `RectF`, the class index is shifted by one into the
  label file, and the score is passed through. A label index outside the label
  list is an error result, where the app would throw. `DetectionHelper` is the
  helper class, with its preallocated buffers as fields.
- **Mapping boxes to preview pixels** (`Geometry`, `CameraPreview`,
  `LegacyPreview`). The mapping has three steps:
  - scale by the preview size;
  - mirror the box through the preview centre exactly when "back-facing"
    differs from "rotation is 90 or 270";
  - apply the 10% margin about the centre, chosen by portrait versus
    landscape.

  The current `PreviewViewModel` and the earlier one at the package root are
  both modelled. The earlier one is proved to compute the same mapping.
- **Filtering and display list** (`DetectionDisplay`). This part is shared by
  both preview view models. It keeps the detections scored strictly above the
  threshold, in order, and builds one `DetectionLocation` per kept detection,
  with width and height clamped to the preview size.
- **Inference timer** (`InferenceTimer`). A start/stop stopwatch that keeps a
  total and a count. Its ghost history of durations ties the total to the sum
  of the measured durations and the count to their number.
- **Runtime statistics and recording** (`ModelStats`). The fps counter closes
  a window every 10 inferences and keeps a running average. The
  once-per-second stats tick is one loop iteration. The snapshot recording is
  a state machine over NOT_RECORDING, RECORDING and PROCESSING.
- **UI state view models** (`BottomSheetScaffold`, `ModalBottom`). A flag
  toggle and a model selection over immutable state records.

Objects whose fields the app updates are Dafny classes whose methods update
those fields. `StateFlow.update { it.copy(...) }` is a reassignment of a field
holding a datatype value. Pure computations are functions, with lemmas about
them.

Modelling conventions:

- **Time.** Clock readings (`System.currentTimeMillis`,
  `SystemClock.elapsedRealtime`) are `now` parameters. No monotonicity is
  assumed unless a lemma says so.
- **Numbers.** Coordinates, scores and thresholds are `real`, so Float rounding
  is not modelled. Kotlin's integer division and `Float.toInt` truncate toward
  zero; `Numeric.TruncDiv` and `Numeric.FloatToInt` model that explicitly for
  negative operands.
- **`postValue` on LiveData** is treated as taking effect at once, with one
  exception. A stats tick runs on the main thread, so the values it posts
  become visible only after it finishes. Within one tick, the snapshot and the
  state therefore see the counters as they were before the tick.
- **Rotation** is compared literally with 90 and 270, as the code does.
  `Surface.ROTATION_0` is 0, and nothing in the app changes `rotation`.

Behaviour of the code that the contracts make explicit:

- A full recording is stopped before the snapshot is appended. The stopped
  record therefore holds `maxSnapshots + 1` snapshots, although the recording
  is described as holding at most `maxSnapshots`. The model follows the code.
- The chart job that a stop launches runs on the main thread and does not
  suspend, so in the app it completes before control returns to the main
  looper (`ModelStats.StopAndDrawChart`). The model keeps the completion as a
  separate step, `FinishProcessing`, so that later orderings can be stated
  too. If a chart job completed only after a restart, it would end the new
  recording as well (`ModelStats.RestartIsCutShortByChartJob`).
- `stopFpsCounter` zeroes the state's `avgFps` but not the `avgFps` LiveData.
  A tick after the job is restarted publishes the old average again.
- `stopMeasurement` without a pending start returns 0, and
  `stopModelInferenceTimeMeasurement` publishes that 0 as the inference time.

## Model

| member | source | states |
|---|---|---|
| Numeric.TruncDiv | app/src/main/java/com/giganbyte/jetpackcomposetfobjectdetection/ui/shared/viewmodels/ModelStatsViewModel.kt:156 | Kotlin integer division: the remainder is smaller than the divisor in magnitude and takes the dividend's sign |
| Numeric.FloatToInt | app/src/main/java/com/giganbyte/jetpackcomposetfobjectdetection/utils/tf/ObjectDetectionHelper.kt:58 | `toInt` truncates toward zero: the result lies within 1 of the value, on the side of zero |
| Numeric.Sum | app/src/main/java/com/giganbyte/jetpackcomposetfobjectdetection/ui/shared/viewmodels/ModelStatsViewModel.kt:274-275 | `sumOf`: 0 for an empty list, and never negative when no term is |
| Numeric.MeanWithin | app/src/main/java/com/giganbyte/jetpackcomposetfobjectdetection/ui/shared/viewmodels/ModelStatsViewModel.kt:274-275 | the truncated integer mean of values in [lo, hi] lies in [lo, hi] |
| Geometry.Scale | app/src/main/java/com/giganbyte/jetpackcomposetfobjectdetection/ui/screens/camerapreview/PreviewViewModel.kt:125-130 | scaling multiplies the width and centre x by the preview width, and the height and centre y by the preview height |
| Geometry.ShouldMirror | app/src/main/java/com/giganbyte/jetpackcomposetfobjectdetection/ui/screens/camerapreview/PreviewViewModel.kt:132-139 | the mirror applies if and only if "back-facing" differs from "rotation is 90 or 270" |
| Geometry.Mirror | app/src/main/java/com/giganbyte/jetpackcomposetfobjectdetection/ui/screens/camerapreview/PreviewViewModel.kt:141-146 | the reflection keeps the size and reflects the centre through the preview centre |
| Geometry.MirrorInvolutive | app/src/main/java/com/giganbyte/jetpackcomposetfobjectdetection/ui/screens/camerapreview/PreviewViewModel.kt:141-146 | mirroring twice gives back the rectangle |
| Geometry.ApplyMargin | app/src/main/java/com/giganbyte/jetpackcomposetfobjectdetection/ui/screens/camerapreview/PreviewViewModel.kt:151-170 | the centre is kept; on a portrait preview the width grows by 10% and the height shrinks by 10%; otherwise, square included, the reverse |
| Geometry.MarginCommutesWithMirror | app/src/main/java/com/giganbyte/jetpackcomposetfobjectdetection/ui/screens/camerapreview/PreviewViewModel.kt:136-170 | applying the margin before or after the mirror gives the same rectangle |
| Geometry.MapToPreview | app/src/main/java/com/giganbyte/jetpackcomposetfobjectdetection/ui/screens/camerapreview/PreviewViewModel.kt:120-171 | the mapped box is centred at the scaled centre, or at its reflection when mirrored |
| Geometry.MapToPreviewSize | app/src/main/java/com/giganbyte/jetpackcomposetfobjectdetection/ui/screens/camerapreview/PreviewViewModel.kt:151-170 | the mapped box has the scaled size times 1.1 and 0.9, in the order the preview's orientation picks |
| Geometry.MapToPreviewEmptyPreview | app/src/main/java/com/giganbyte/jetpackcomposetfobjectdetection/ui/screens/camerapreview/PreviewViewModel.kt:123-170 | on a 0 x 0 preview every box maps to the all-zero rectangle |
| Geometry.MapToPreviewMirrorSymmetry | app/src/main/java/com/giganbyte/jetpackcomposetfobjectdetection/ui/screens/camerapreview/PreviewViewModel.kt:132-170 | toggling the mirror condition gives the mirror image of the mapped box |
| CameraPreview.DefaultPreviewState | app/src/main/java/com/giganbyte/jetpackcomposetfobjectdetection/ui/screens/camerapreview/PreviewViewModel.kt:176-204 | defaults: threshold 0.5, a 1080 x 1440 preview, no detections, back camera at rotation 0, 60 fps |
| CameraPreview.Mirrored | app/src/main/java/com/giganbyte/jetpackcomposetfobjectdetection/ui/screens/camerapreview/PreviewViewModel.kt:132-139 | the camera state mirrors if and only if back-facing differs from rotation being 90 or 270 |
| CameraPreview.MapOutputCoordinates | app/src/main/java/com/giganbyte/jetpackcomposetfobjectdetection/ui/screens/camerapreview/PreviewViewModel.kt:120-171 | the box centre goes to the scaled centre, reflected through the preview centre when the camera state mirrors |
| CameraPreview.DefaultRotationMirrorsBackCamera | app/src/main/java/com/giganbyte/jetpackcomposetfobjectdetection/ui/screens/camerapreview/PreviewViewModel.kt:132-139 | at rotation 0 the boxes are mirrored exactly for the back camera |
| CameraPreview.SwitchingLensMirrors | app/src/main/java/com/giganbyte/jetpackcomposetfobjectdetection/ui/screens/camerapreview/PreviewViewModel.kt:132-170 | switching from the back to the front camera mirrors every mapped box through the preview centre |
| CameraPreview.EmptyPreviewMapsToOrigin | app/src/main/java/com/giganbyte/jetpackcomposetfobjectdetection/ui/screens/camerapreview/PreviewViewModel.kt:123-170 | before the preview is measured (0 x 0) every box maps to the all-zero rectangle |
| CameraPreview.CentredBoxOnDefaultPreview | app/src/main/java/com/giganbyte/jetpackcomposetfobjectdetection/ui/screens/camerapreview/PreviewViewModel.kt:151-170 | the centred half-size box on the default preview maps to (243, 396, 837, 1044) |
| CameraPreview.PreviewViewModel.constructor | app/src/main/java/com/giganbyte/jetpackcomposetfobjectdetection/ui/screens/camerapreview/PreviewViewModel.kt:28 | the view model starts with the default preview state |
| CameraPreview.PreviewViewModel.UpdateDetections | app/src/main/java/com/giganbyte/jetpackcomposetfobjectdetection/ui/screens/camerapreview/PreviewViewModel.kt:34-81 | the detections become the confident ones, the display list is rebuilt from them with this preview's mapping, and nothing else changes |
| CameraPreview.PreviewViewModel.UpdateConfidence | app/src/main/java/com/giganbyte/jetpackcomposetfobjectdetection/ui/screens/camerapreview/PreviewViewModel.kt:83-87 | only the threshold changes |
| CameraPreview.PreviewViewModel.UpdateMaxCameraFrameRate | app/src/main/java/com/giganbyte/jetpackcomposetfobjectdetection/ui/screens/camerapreview/PreviewViewModel.kt:89-97 | only the camera state's maximum frame rate changes |
| CameraPreview.PreviewViewModel.UpdatePreviewSize | app/src/main/java/com/giganbyte/jetpackcomposetfobjectdetection/ui/screens/camerapreview/PreviewViewModel.kt:99-103 | only the preview size changes |
| CameraPreview.PreviewViewModel.UpdateResolution | app/src/main/java/com/giganbyte/jetpackcomposetfobjectdetection/ui/screens/camerapreview/PreviewViewModel.kt:105-109 | only the model resolution changes |
| DetectionDisplay.KeepConfident | app/src/main/java/com/giganbyte/jetpackcomposetfobjectdetection/ui/screens/camerapreview/PreviewViewModel.kt:38 | the kept detections are exactly those of the input scored strictly above the threshold, with no more occurrences than the input has |
| DetectionDisplay.KeepConfidentMultiplicity | app/src/main/java/com/giganbyte/jetpackcomposetfobjectdetection/ui/screens/camerapreview/PreviewViewModel.kt:38 | each detection scored above the threshold is kept exactly as many times as it occurs, every other one not at all |
| DetectionDisplay.KeepConfidentAppend | app/src/main/java/com/giganbyte/jetpackcomposetfobjectdetection/ui/screens/camerapreview/PreviewViewModel.kt:38 | filtering distributes over concatenation, so the original order is kept |
| DetectionDisplay.KeepConfidentExtremes | app/src/main/java/com/giganbyte/jetpackcomposetfobjectdetection/ui/screens/camerapreview/PreviewViewModel.kt:38 | with every score above the threshold all are kept; with none above, none are |
| DetectionDisplay.Clamped | app/src/main/java/com/giganbyte/jetpackcomposetfobjectdetection/ui/screens/camerapreview/PreviewViewModel.kt:63-74 | `min` of the preview dimension and the extent: at most both, and equal to one of them |
| DetectionDisplay.DisplayLocations | app/src/main/java/com/giganbyte/jetpackcomposetfobjectdetection/ui/screens/camerapreview/PreviewViewModel.kt:43-78 | one entry per kept detection, in order, holding the mapped location, dp margins, the clamped dp size, and the label and score unchanged |
| LegacyPreview.DefaultPreviewState | app/src/main/java/com/giganbyte/jetpackcomposetfobjectdetection/PreviewViewModel.kt:215-247 | defaults: fps 0, threshold 0.5, a 1080 x 1080 preview, no detections, back camera at 0 degrees |
| LegacyPreview.OffsetScale | app/src/main/java/com/giganbyte/jetpackcomposetfobjectdetection/PreviewViewModel.kt:129-151 | the offset factor is overwritten with 1, so the earlier scaling step equals plain scaling |
| LegacyPreview.MapOutputCoordinates | app/src/main/java/com/giganbyte/jetpackcomposetfobjectdetection/PreviewViewModel.kt:118-209 | the box centre goes to the scaled centre, reflected through the preview centre when the lens and `imageRotationDegrees` ask for the mirror |
| LegacyPreview.AgreesWithCurrentMapping | app/src/main/java/com/giganbyte/jetpackcomposetfobjectdetection/PreviewViewModel.kt:118-209 | the earlier mapping, with its unused `giga` rectangle, equals the current mapping when `imageRotationDegrees` is used as the rotation |
| LegacyPreview.PreviewViewModel.constructor | app/src/main/java/com/giganbyte/jetpackcomposetfobjectdetection/PreviewViewModel.kt:29-34 | the view model starts with the default state and a zero fps counter |
| LegacyPreview.PreviewViewModel.UpdateDetections | app/src/main/java/com/giganbyte/jetpackcomposetfobjectdetection/PreviewViewModel.kt:36-71 | the same filter and display list as the current generation, using this generation's mapping; nothing else changes |
| LegacyPreview.PreviewViewModel.FpsTick | app/src/main/java/com/giganbyte/jetpackcomposetfobjectdetection/PreviewViewModel.kt:77-82 | the state's fps takes the frame count, and the count restarts at 0 |
| LegacyPreview.PreviewViewModel.IncrementFpsCounter | app/src/main/java/com/giganbyte/jetpackcomposetfobjectdetection/PreviewViewModel.kt:88-90 | the frame count grows by one and nothing else changes |
| LegacyPreview.PreviewViewModel.StopFpsCounter | app/src/main/java/com/giganbyte/jetpackcomposetfobjectdetection/PreviewViewModel.kt:91-97 | both the counter and the state's fps become 0 |
| LegacyPreview.PreviewViewModel.UpdatePreviewSize | app/src/main/java/com/giganbyte/jetpackcomposetfobjectdetection/PreviewViewModel.kt:103-107 | only the preview size changes |
| LegacyPreview.PreviewViewModel.UpdateResolution | app/src/main/java/com/giganbyte/jetpackcomposetfobjectdetection/PreviewViewModel.kt:108-112 | only the model resolution changes |
| LegacyPreview.TickPublishesFramesSinceLastTick | app/src/main/java/com/giganbyte/jetpackcomposetfobjectdetection/PreviewViewModel.kt:72-90 | the fps a tick publishes is the number of frames counted since the previous tick |
| ObjectDetection.RowPrediction | app/src/main/java/com/giganbyte/jetpackcomposetfobjectdetection/utils/tf/ObjectDetectionHelper.kt:47-63 | the prediction's box in raw layout is the row, its label is entry 1 + class of the label list, and its score is unchanged |
| ObjectDetection.DecodeRows | app/src/main/java/com/giganbyte/jetpackcomposetfobjectdetection/utils/tf/ObjectDetectionHelper.kt:46-64 | decoding rows [0, n) succeeds if and only if every label index is in range, giving entry i from row i; otherwise it reports the first bad row and its index |
| ObjectDetection.Decode | app/src/main/java/com/giganbyte/jetpackcomposetfobjectdetection/utils/tf/ObjectDetectionHelper.kt:46-76 | `predictions`: exactly 10 entries, entry i from row i (box reordered, label shifted by one, score unchanged); an error exactly when some label index is out of range |
| ObjectDetection.DetectionHelper.constructor | app/src/main/java/com/giganbyte/jetpackcomposetfobjectdetection/utils/tf/ObjectDetectionHelper.kt:30-44 | the buffers start zero-filled with the allocated shapes |
| ObjectDetection.DetectionHelper.Predictions | app/src/main/java/com/giganbyte/jetpackcomposetfobjectdetection/utils/tf/ObjectDetectionHelper.kt:46-64 | over the current buffers: 10 entries, entry i from row i (box reordered, label shifted by one, score unchanged), or an error exactly when some label index is out of range |
| ObjectDetection.DetectionHelper.Predict | app/src/main/java/com/giganbyte/jetpackcomposetfobjectdetection/utils/tf/ObjectDetectionHelper.kt:67-73 | the buffers hold the interpreter's output and the result is the decoding of that output |
| BottomSheetScaffold.DefaultScaffoldState | app/src/main/java/com/giganbyte/jetpackcomposetfobjectdetection/ui/BottomSheetScaffoldViewModel.kt:28-35 | defaults: both flags false, one model, and the current model is the first |
| BottomSheetScaffold.BottomSheetScaffoldViewModel.ToggleBottomSheetSelector | app/src/main/java/com/giganbyte/jetpackcomposetfobjectdetection/ui/BottomSheetScaffoldViewModel.kt:14-18 | the selector flag is negated and every other field is kept |
| BottomSheetScaffold.BottomSheetScaffoldViewModel.UpdateModel | app/src/main/java/com/giganbyte/jetpackcomposetfobjectdetection/ui/BottomSheetScaffoldViewModel.kt:20-24 | only the current model changes |
| BottomSheetScaffold.ToggleTwiceRestores | app/src/main/java/com/giganbyte/jetpackcomposetfobjectdetection/ui/BottomSheetScaffoldViewModel.kt:14-18 | toggling twice restores the state |
| BottomSheetScaffold.UpdateModelIdempotent | app/src/main/java/com/giganbyte/jetpackcomposetfobjectdetection/ui/BottomSheetScaffoldViewModel.kt:20-24 | selecting the same model twice is the same as once |
| ModalBottom.DefaultModalState | app/src/main/java/com/giganbyte/jetpackcomposetfobjectdetection/ModalBottomViewModel.kt:35-43 | defaults: both flags true, three models, the current model is the first, resolution 0 x 0 |
| ModalBottom.ModalBottomViewModel.OnModelSelectorDismissed | app/src/main/java/com/giganbyte/jetpackcomposetfobjectdetection/ModalBottomViewModel.kt:18-22 | the model selector flag becomes false and every other field is kept |
| ModalBottom.ModalBottomViewModel.OnModelSelected | app/src/main/java/com/giganbyte/jetpackcomposetfobjectdetection/ModalBottomViewModel.kt:25-29 | only the current model changes |
| ModalBottom.DismissIdempotent | app/src/main/java/com/giganbyte/jetpackcomposetfobjectdetection/ModalBottomViewModel.kt:18-22 | dismissing twice is the same as once |
| InferenceTimer.Average | app/src/main/java/com/giganbyte/jetpackcomposetfobjectdetection/utils/InferenceTimer.kt:30-36 | 0 when nothing was counted; otherwise, for a non-negative total, the largest average whose multiple by the count does not exceed the total |
| InferenceTimer.AverageOfNonNegative | app/src/main/java/com/giganbyte/jetpackcomposetfobjectdetection/utils/InferenceTimer.kt:20-36 | with non-negative durations the total and the average are non-negative, and average times count does not exceed the total |
| InferenceTimer.AverageWithin | app/src/main/java/com/giganbyte/jetpackcomposetfobjectdetection/utils/InferenceTimer.kt:30-36 | the average of durations within [lo, hi] lies within [lo, hi] |
| InferenceTimer.Timer.constructor | app/src/main/java/com/giganbyte/jetpackcomposetfobjectdetection/utils/InferenceTimer.kt:6-11 | a new timer has no pending start, zero times and count, and no durations |
| InferenceTimer.Timer.StartMeasurement | app/src/main/java/com/giganbyte/jetpackcomposetfobjectdetection/utils/InferenceTimer.kt:12-15 | the start time is the clock reading and a stop is armed; the totals are kept |
| InferenceTimer.Timer.StopMeasurement | app/src/main/java/com/giganbyte/jetpackcomposetfobjectdetection/utils/InferenceTimer.kt:17-28 | without a pending start it returns 0 and changes nothing; otherwise it returns now minus the start, adds it to the total and the durations, counts it, and disarms |
| InferenceTimer.Timer.AvgInferenceTime | app/src/main/java/com/giganbyte/jetpackcomposetfobjectdetection/utils/InferenceTimer.kt:30-36 | 0 before any measurement, otherwise the truncated mean of the measured durations |
| InferenceTimer.Timer.TotalTime | app/src/main/java/com/giganbyte/jetpackcomposetfobjectdetection/utils/InferenceTimer.kt:39-41 | the total is the sum of the durations measured since the last reset |
| InferenceTimer.Timer.Reset | app/src/main/java/com/giganbyte/jetpackcomposetfobjectdetection/utils/InferenceTimer.kt:44-49 | the times, the total and the count become 0, and a pending start is kept |
| InferenceTimer.MonotonicClockBounds | app/src/main/java/com/giganbyte/jetpackcomposetfobjectdetection/utils/InferenceTimer.kt:17-41 | with non-negative durations the total and average are non-negative and average times count is at most the total |
| InferenceTimer.SecondStopReturnsZero | app/src/main/java/com/giganbyte/jetpackcomposetfobjectdetection/utils/InferenceTimer.kt:17-28 | a stop right after a stop returns 0 |
| InferenceTimer.MeasureOnce | app/src/main/java/com/giganbyte/jetpackcomposetfobjectdetection/utils/InferenceTimer.kt:12-28 | a start and a later stop record one non-negative duration, and the totals stay non-negative |
| ModelStats.DefaultStatsState | app/src/main/java/com/giganbyte/jetpackcomposetfobjectdetection/ui/shared/viewmodels/ModelStatsViewModel.kt:426-436 | defaults: every statistic 0 and threshold 0.5 |
| ModelStats.DefaultRecordState | app/src/main/java/com/giganbyte/jetpackcomposetfobjectdetection/ui/shared/viewmodels/ModelStatsViewModel.kt:445-454 | defaults: not recording, capacity 10, no times, averages 0, no snapshots |
| ModelStats.WindowFps | app/src/main/java/com/giganbyte/jetpackcomposetfobjectdetection/ui/shared/viewmodels/ModelStatsViewModel.kt:140-152 | fps 1 for a window that took no time; for a positive delta the floor of 10000 / delta, within [0, 10000]; for a negative delta truncated toward zero |
| ModelStats.ResetRecord | app/src/main/java/com/giganbyte/jetpackcomposetfobjectdetection/ui/shared/viewmodels/ModelStatsViewModel.kt:249-261 | not recording, no snapshots, every time and average 0, and the capacity is kept |
| ModelStats.StopRecord | app/src/main/java/com/giganbyte/jetpackcomposetfobjectdetection/ui/shared/viewmodels/ModelStatsViewModel.kt:263-309 | no change while PROCESSING; with no snapshots it only goes to NOT_RECORDING; otherwise PROCESSING with end time, duration and the integer means of the snapshots |
| ModelStats.StartRecord | app/src/main/java/com/giganbyte/jetpackcomposetfobjectdetection/ui/shared/viewmodels/ModelStatsViewModel.kt:229-247 | no change while PROCESSING; otherwise RECORDING with no snapshots, times and averages 0, and the same capacity |
| ModelStats.WithSnapshot | app/src/main/java/com/giganbyte/jetpackcomposetfobjectdetection/ui/shared/viewmodels/ModelStatsViewModel.kt:207-227 | the snapshot is always appended and the start time set only when it was 0; a full record otherwise becomes what a stop makes of it, and one with room left keeps every other field |
| ModelStats.RecordingStaysBounded | app/src/main/java/com/giganbyte/jetpackcomposetfobjectdetection/ui/shared/viewmodels/ModelStatsViewModel.kt:207-227 | a RECORDING record stays within capacity; adding to a full one stops it, leaving capacity + 1 snapshots |
| ModelStats.StopAveragesWithin | app/src/main/java/com/giganbyte/jetpackcomposetfobjectdetection/ui/shared/viewmodels/ModelStatsViewModel.kt:269-278 | the averages a stop computes lie between the smallest and largest snapshot values |
| ModelStats.RestartEmptyRecording | app/src/main/java/com/giganbyte/jetpackcomposetfobjectdetection/ui/shared/viewmodels/ModelStatsViewModel.kt:229-261 | starting again before any snapshot changes nothing |
| ModelStats.ModelStatsViewModel.constructor | app/src/main/java/com/giganbyte/jetpackcomposetfobjectdetection/ui/shared/viewmodels/ModelStatsViewModel.kt:33-66 | default states, all counters 0, the fps timestamp at the clock reading, and a fresh timer |
| ModelStats.ModelStatsViewModel.UpdateFpsCounter | app/src/main/java/com/giganbyte/jetpackcomposetfobjectdetection/ui/shared/viewmodels/ModelStatsViewModel.kt:134-160 | nine calls in ten only count; the tenth closes a window, so the frame counter goes back to 0, the window fps is published and added to the running total, and the average is the total over the window count |
| ModelStats.ModelStatsViewModel.IncrementUpdatedUiFramesCounter | app/src/main/java/com/giganbyte/jetpackcomposetfobjectdetection/ui/shared/viewmodels/ModelStatsViewModel.kt:162-164 | the UI frame counter grows by one and nothing else changes |
| ModelStats.ModelStatsViewModel.StartModelInferenceTimeMeasurement | app/src/main/java/com/giganbyte/jetpackcomposetfobjectdetection/ui/shared/viewmodels/ModelStatsViewModel.kt:120-122 | the timer is armed at the clock reading |
| ModelStats.ModelStatsViewModel.StopModelInferenceTimeMeasurement | app/src/main/java/com/giganbyte/jetpackcomposetfobjectdetection/ui/shared/viewmodels/ModelStatsViewModel.kt:127-129 | the published inference time is the measured duration, or 0 without a pending start |
| ModelStats.ModelStatsViewModel.StopFpsCounter | app/src/main/java/com/giganbyte/jetpackcomposetfobjectdetection/ui/shared/viewmodels/ModelStatsViewModel.kt:166-175 | zeroes the fps and UI counters, the running totals and the state's three fps fields; keeps the frame counter, the timestamp and the inference fields |
| ModelStats.ModelStatsViewModel.Reset | app/src/main/java/com/giganbyte/jetpackcomposetfobjectdetection/ui/shared/viewmodels/ModelStatsViewModel.kt:189-205 | as `stopFpsCounter`, plus a timer reset and all six statistics of the state zeroed |
| ModelStats.ModelStatsViewModel.Tick | app/src/main/java/com/giganbyte/jetpackcomposetfobjectdetection/ui/shared/viewmodels/ModelStatsViewModel.kt:77-105 | the state takes the published statistics; the per-second counters are zeroed; the timer's average and total are published; while RECORDING the record gains a snapshot of the second |
| ModelStats.ModelStatsViewModel.AddSnapshotToRecord | app/src/main/java/com/giganbyte/jetpackcomposetfobjectdetection/ui/shared/viewmodels/ModelStatsViewModel.kt:207-227 | the record becomes `WithSnapshot` of it, and a stop that computes averages launches a chart job |
| ModelStats.ModelStatsViewModel.StartSnapshotsRecording | app/src/main/java/com/giganbyte/jetpackcomposetfobjectdetection/ui/shared/viewmodels/ModelStatsViewModel.kt:229-247 | the record becomes `StartRecord` of it, and stopping a non-empty recording launches a chart job |
| ModelStats.ModelStatsViewModel.ResetRecording | app/src/main/java/com/giganbyte/jetpackcomposetfobjectdetection/ui/shared/viewmodels/ModelStatsViewModel.kt:249-261 | the record becomes `ResetRecord` of it and nothing else changes |
| ModelStats.ModelStatsViewModel.StopSnapshotsRecording | app/src/main/java/com/giganbyte/jetpackcomposetfobjectdetection/ui/shared/viewmodels/ModelStatsViewModel.kt:263-309 | the record becomes `StopRecord` of it, and a chart job is launched exactly when averages are computed |
| ModelStats.ModelStatsViewModel.FinishProcessing | app/src/main/java/com/giganbyte/jetpackcomposetfobjectdetection/ui/shared/viewmodels/ModelStatsViewModel.kt:288-298 | a completing chart job sets NOT_RECORDING, whatever the status was |
| ModelStats.AverageFpsInRange | app/src/main/java/com/giganbyte/jetpackcomposetfobjectdetection/ui/shared/viewmodels/ModelStatsViewModel.kt:137-156 | when every window fps lies in [0, 10000], so does the published average |
| ModelStats.RunStatsJob | app/src/main/java/com/giganbyte/jetpackcomposetfobjectdetection/ui/shared/viewmodels/ModelStatsViewModel.kt:73-109 | on a fresh recording, each tick adds one snapshot, and the recording stays RECORDING for up to `maxSnapshots` ticks |
| ModelStats.RestartIsCutShortByChartJob | app/src/main/java/com/giganbyte/jetpackcomposetfobjectdetection/ui/shared/viewmodels/ModelStatsViewModel.kt:229-298 | if the chart job of a stopped non-empty recording completed after the restart, the new recording would end NOT_RECORDING with no snapshots |
| ModelStats.StopAndDrawChart | app/src/main/java/com/giganbyte/jetpackcomposetfobjectdetection/ui/shared/viewmodels/ModelStatsViewModel.kt:263-309 | a stop whose chart job completes at once leaves the stop's record NOT_RECORDING, unless it was PROCESSING |
| ModelStats.StaleAverageAfterStop | app/src/main/java/com/giganbyte/jetpackcomposetfobjectdetection/ui/shared/viewmodels/ModelStatsViewModel.kt:166-175 | a tick after `stopFpsCounter` publishes fps 0 and the last average fps |

## Left out

- Chart drawing and export (`drawSnapshotsRecordingChart`, `createBitmapFromLayout`): these use a charting library, Bitmap/Canvas and MediaStore file I/O. Only the job's completion is modelled, as `FinishProcessing`.
- Coroutines (`viewModelScope.launch`, `delay`, `Job.cancel`, `isJobRunning`, `onCleared`): these are scheduling. One loop iteration is `Tick` or `FpsTick`, and the loop is the caller's `while`. `stopUpdateStatsJob` is `Reset` plus a cancel.
- LiveData delivery: `postValue` takes effect at once outside a tick, and at the end of the tick inside it. Other orderings of the main thread are not modelled.
- Float rounding, Int/Long overflow and the `Long.toInt` casts: these are treated as exact. Coordinates are `real` and counters are unbounded integers.
- `convertPixelsToDp` and the random colours: these are parameters (`toDp`, `colorOf`) of `UpdateDetections`.
- The TFLite interpreter call that fills the buffers: its output is the parameter of `Predict`. The timing inside `predict` is unused and left out. The batch dimension of the buffers (always index 0) is dropped.
- Both `TfAnalyzer` classes, the Compose screens, `MainActivity` and the CameraX binding: these are platform code and foreign calls.
- `LegacyPreview`: the unused `notscaledpreviewLocation`, `scaleX`, `scaleY`, `tas` and the log calls leave no trace on the result and are not modelled. The computed `offsetX` and `giga` are kept as unused bindings.
- `ModelStats.ModelStatsViewModel.Tick`: the snapshot and the state see the fps counter and inference statistics as they were before the tick. This follows from the main-thread delivery of the tick's own posts. The snapshot is written with the values before line 92's reset.
- `ModelStats.WindowFps`: it models `(10000f / delta).toInt()` as integer division truncated toward zero. This is exact for Float, apart from rounding of very large deltas.
- `ObjectDetection.Decode`: an out-of-range label index is reported as an error result for the first such row. The app throws an `IndexOutOfBoundsException` there.
- `ModelStats.ModelStatsViewModel.FinishProcessing` may be called at any later point. In the app the chart job runs on the main thread without suspending and completes before control returns to the main looper, so no other main-thread event sees PROCESSING; `ModelStats.StopAndDrawChart` is that ordering.
- Concurrency between the analyzer thread and the main thread: every method is modelled as one atomic step, with no interleaving. In the app the analyzer runs on its own single-thread executor and calls `startModelInferenceTimeMeasurement`, `updateDetections`, `stopModelInferenceTimeMeasurement` and `updateFpsCounter`. Meanwhile the main thread runs the stats tick, `stopFpsCounter`, `reset` and the preview setters. Two consequences are not captured:
  - `ModelStats.ModelStatsViewModel.UpdateFpsCounter`: a `stopFpsCounter` that zeroes `totalFrameCounter` (ModelStatsViewModel.kt line 168) after the analyzer's increment (line 137) and before its division (line 156) divides by zero in the app. The model's divisor-at-least-1 guarantee holds only for atomic calls.
  - `CameraPreview.PreviewViewModel.UpdateDetections`: the two separate `_previewState.update` calls are fused into one step, so a `updatePreviewSize` landing between them is not modelled.
- `Model` and `Resolution` are declared identically in two source files, and the model declares each once, in `BottomSheetScaffold`.
