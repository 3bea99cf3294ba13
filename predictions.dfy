/**
  The values that flow from the decoders of the inference pipeline to the
  drawing layer: boxes, keypoints, detections and poses. Coordinates are in
  source-image pixels; scores and coordinates are modelled as reals.
 */
module Predictions {

  datatype Option<T> = None | Some(value: T)

  /** An axis-aligned box given by its top-left corner (x, y) and its size (w, h). */
  datatype Box = Box(x: real, y: real, w: real, h: real)

  /** One body keypoint: position and the network's confidence that it is visible. */
  datatype Keypoint = Keypoint(x: real, y: real, score: real)

  /**
    A result of the detection decoder. classIdx is the winning class channel,
    or -1 when no class channel scored above 0.
   */
  datatype Detection = Detection(bbox: Box, classIdx: int, score: real)

  /** A result of the pose decoder: box, person score and the keypoints. */
  datatype Pose = Pose(bbox: Box, score: real, keypoints: seq<Keypoint>)

  /** One element of the prediction list that the pipeline returns and the drawing layer reads. */
  datatype Prediction = Detected(detection: Detection) | Posed(pose: Pose)
  {
    function Bbox(): Box {
      match this
      case Detected(d) => d.bbox
      case Posed(p) => p.bbox
    }

    function Score(): real {
      match this
      case Detected(d) => d.score
      case Posed(p) => p.score
    }
  }
}
