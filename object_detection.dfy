/**
  `ObjectDetectionHelper`: decoding the SSD MobileNet output buffers into
  predictions. The interpreter call that fills the buffers is not modelled; its
  output is a parameter. The leading batch dimension of each TFLite output
  buffer (always index 0) is dropped.
 */
module ObjectDetection {
  import opened Numeric
  import opened Geometry

  /** `OBJECT_COUNT`: the number of detections the model reports per frame. */
  const ObjectCount: nat := 10

  /** `ObjectPrediction(location, label, score)`; `label` is a Dafny keyword, hence `labelName`. */
  datatype ObjectPrediction = ObjectPrediction(location: Rect, labelName: string, score: real)

  /** Indexing the label list out of bounds: the row and the index it asked for. */
  datatype DecodeError = LabelIndexOutOfRange(row: nat, index: int)

  datatype Result<T> = Success(value: T) | Failure(error: DecodeError)

  /** The shapes the helper allocates: ObjectCount rows of four box values, one class and one score per row. */
  predicate WellShaped(locations: seq<seq<real>>, labelIndices: seq<real>, scores: seq<real>)
  {
    && |locations| == ObjectCount
    && (forall i :: 0 <= i < ObjectCount ==> |locations[i]| == 4)
    && |labelIndices| == ObjectCount
    && |scores| == ObjectCount
  }

  /** The raw model layout of a box: [top, left, bottom, right]. */
  function RawBox(r: Rect): seq<real>
  {
    [r.top, r.left, r.bottom, r.right]
  }

  /** Index into the label file: class 0 of the label file is the background, so the model's class k is label 1 + k. */
  function LabelIndex(classValue: real): int
  {
    1 + FloatToInt(classValue)
  }

  predicate LabelInRange(classValue: real, labels: seq<string>)
  {
    0 <= LabelIndex(classValue) < |labels|
  }

  /** One prediction from row i of the buffers, when its label index is in range. */
  function RowPrediction(box: seq<real>, classValue: real, score: real, labels: seq<string>): (p: ObjectPrediction)
    requires |box| == 4 && LabelInRange(classValue, labels)
    ensures RawBox(p.location) == box
    ensures p.labelName == labels[LabelIndex(classValue)]
    ensures p.score == score
  {
    ObjectPrediction(Rect(box[1], box[0], box[3], box[2]), labels[LabelIndex(classValue)], score)
  }

  /**
    The `predictions` getter restricted to rows [0, n): row by row in order,
    stopping at the first row whose label index is out of range.
   */
  function DecodeRows(locations: seq<seq<real>>, labelIndices: seq<real>, scores: seq<real>,
                      labels: seq<string>, n: nat): (r: Result<seq<ObjectPrediction>>)
    requires WellShaped(locations, labelIndices, scores) && n <= ObjectCount
    ensures r.Success? <==> forall i :: 0 <= i < n ==> LabelInRange(labelIndices[i], labels)
    ensures r.Success? ==> |r.value| == n
    ensures r.Success? ==> forall i :: 0 <= i < n ==>
      r.value[i] == RowPrediction(locations[i], labelIndices[i], scores[i], labels)
    ensures r.Failure? ==> r.error.row < n && !LabelInRange(labelIndices[r.error.row], labels)
    ensures r.Failure? ==> r.error.index == LabelIndex(labelIndices[r.error.row])
    ensures r.Failure? ==> forall i :: 0 <= i < r.error.row ==> LabelInRange(labelIndices[i], labels)
  {
    if n == 0 then Success([])
    else
      match DecodeRows(locations, labelIndices, scores, labels, n - 1)
      case Failure(e) => Failure(e)
      case Success(ps) =>
        var i := n - 1;
        if LabelInRange(labelIndices[i], labels) then
          Success(ps + [RowPrediction(locations[i], labelIndices[i], scores[i], labels)])
        else
          Failure(LabelIndexOutOfRange(i, LabelIndex(labelIndices[i])))
  }

  /** The `predictions` getter: ObjectCount predictions, entry i built from row i of each buffer. */
  function Decode(locations: seq<seq<real>>, labelIndices: seq<real>, scores: seq<real>,
                  labels: seq<string>): (r: Result<seq<ObjectPrediction>>)
    requires WellShaped(locations, labelIndices, scores)
    ensures r.Success? ==> |r.value| == ObjectCount
    ensures r.Success? ==> forall i :: 0 <= i < ObjectCount ==>
      && LabelInRange(labelIndices[i], labels)
      && RawBox(r.value[i].location) == locations[i]
      && r.value[i].labelName == labels[LabelIndex(labelIndices[i])]
      && r.value[i].score == scores[i]
    ensures r.Failure? <==> exists i :: 0 <= i < ObjectCount && !LabelInRange(labelIndices[i], labels)
  {
    DecodeRows(locations, labelIndices, scores, labels, ObjectCount)
  }

  /** The helper with its preallocated output buffers. */
  class DetectionHelper {
    const labels: seq<string>
    var locations: seq<seq<real>>
    var labelIndices: seq<real>
    var scores: seq<real>

    ghost predicate Valid()
      reads this
    {
      WellShaped(locations, labelIndices, scores)
    }

    /** Buffers start zero-filled, as freshly allocated FloatArrays are. */
    constructor (labels: seq<string>)
      ensures Valid() && this.labels == labels
      ensures locations == seq(ObjectCount, _ => [0.0, 0.0, 0.0, 0.0])
      ensures labelIndices == seq(ObjectCount, _ => 0.0) && scores == seq(ObjectCount, _ => 0.0)
    {
      this.labels := labels;
      locations := seq(ObjectCount, _ => [0.0, 0.0, 0.0, 0.0]);
      labelIndices := seq(ObjectCount, _ => 0.0);
      scores := seq(ObjectCount, _ => 0.0);
    }

    /** The `predictions` getter over the current buffer contents. */
    function Predictions(): (r: Result<seq<ObjectPrediction>>)
      reads this
      requires Valid()
      ensures r.Success? ==> |r.value| == ObjectCount
      ensures r.Success? ==> forall i :: 0 <= i < ObjectCount ==>
        && LabelInRange(labelIndices[i], labels)
        && RawBox(r.value[i].location) == locations[i]
        && r.value[i].labelName == labels[LabelIndex(labelIndices[i])]
        && r.value[i].score == scores[i]
      ensures r.Failure? <==> exists i :: 0 <= i < ObjectCount && !LabelInRange(labelIndices[i], labels)
    {
      Decode(locations, labelIndices, scores, labels)
    }

    /**
      `predict`: the interpreter overwrites the three buffers with its output,
      then the buffers are decoded.
     */
    method Predict(outLocations: seq<seq<real>>, outLabelIndices: seq<real>, outScores: seq<real>)
      returns (r: Result<seq<ObjectPrediction>>)
      requires Valid() && WellShaped(outLocations, outLabelIndices, outScores)
      modifies this
      ensures Valid()
      ensures locations == outLocations && labelIndices == outLabelIndices && scores == outScores
      ensures r == Predictions()
      ensures r == Decode(outLocations, outLabelIndices, outScores, labels)
    {
      locations, labelIndices, scores := outLocations, outLabelIndices, outScores;
      r := Predictions();
    }
  }
}
