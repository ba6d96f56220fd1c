/** `DetectionResultArgument`: what feature detection returns for one image. */
module DetectionResults {
  import opened Wrappers
  import opened Foreign

  /** The descriptors of the features found, their centre points, and the image. */
  datatype DetectionResultArgument = DetectionResultArgument(descriptors: seq<SurfFeature>,
                                                             points: seq<Point2D>,
                                                             image: ImageFloat32)

  /**
   * `new DetectionResultArgument(descriptors, points, image)`: a null argument is refused
   * with `NullPointerException`; otherwise the getters return the arguments.
   */
  function NewDetectionResultArgument(descriptors: Option<seq<SurfFeature>>,
                                      points: Option<seq<Point2D>>,
                                      image: Option<ImageFloat32>): (r: Result<DetectionResultArgument>)
    ensures r.Success? <==> descriptors.Some? && points.Some? && image.Some?
    ensures r.Failure? ==> r.error == NullPointerException
    ensures r.Success? ==>
      r.value.descriptors == descriptors.value && r.value.points == points.value &&
      r.value.image == image.value
  {
    if descriptors.None? then Failure(NullPointerException)
    else if points.None? then Failure(NullPointerException)
    else if image.None? then Failure(NullPointerException)
    else Success(DetectionResultArgument(descriptors.value, points.value, image.value))
  }
}
