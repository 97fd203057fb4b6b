/** The landmark record the pose estimator delivers, one per body point. */
module PoseTypes {

  /** Swift's `Optional`. */
  datatype Option<+T> = None | Some(value: T)

  /**
   * One detected body landmark: a normalised position (origin top-left,
   * y growing downward) and an optional detection confidence.
   */
  datatype PosePoint = PosePoint(x: real, y: real, visibility: Option<real>)
}
