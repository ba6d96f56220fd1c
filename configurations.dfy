/**
 * The vocabulary of the parameter layer: BoofCV's configuration objects, the kind tag each
 * controller reports, and the two policy enumerations of the repository.
 *
 * Floating-point fields are `real`s: the controllers only store them and compare them for
 * equality or sign. Each constructor lists its fields in the order the source passes them to
 * the BoofCV constructor; each field is named after the controller field it is copied from.
 */
module Configurations {

  datatype Configuration =
    | ConfigFastHessian(detectThreshold: real, extractRadius: int, maxFeaturePerScale: int,
                        initialSampleSize: int, initialSize: int, numberScalesPerOctave: int,
                        numberOfOctaves: int)
    | ConfigSlidingIntegral(samplePeriod: real, windowSize: real, radius: int,
                            weightSigma: real, sampleWidth: int)
    | ConfigAverageIntegral(radius: int, samplePeriod: real, sampleWidth: int, weightSigma: real)
      /** `ConfigSurfDescribe.Speed` with only `weightSigma` changed from BoofCV's defaults. */
    | ConfigSurfSpeed(weightSigma: real)
      /** `ConfigSurfDescribe.Stablility` with only these three fields changed from BoofCV's defaults. */
    | ConfigSurfStability(overLap: int, sigmaLargeGrid: real, sigmaSubRegion: real)
    | ConfigSiftScaleSpace(blurSigma: real, numScales: int, numOctaves: int, doubleInputImage: bool)
    | ConfigSiftDetector(extractRadius: int, detectThreshold: real, featuresPerScale: int,
                         edgeThreshold: real)
    | ConfigSiftOrientation(histogramSize: int, sigmaToRadius: real, sigmaEnlarge: real)
    | ConfigSiftDescribe(gridWidth: int, numSamples: int, histBins: int,
                         weightSigma: real, sigmaToRadius: real)

  /** The tag a controller attaches to its change notices. */
  datatype ConfigurationType =
    | FAST_HESSIAN | SLIDING_INTEGRAL | AVERAGE_INTEGRAL | SURF_DESCRIBE_SPEED
    | SURF_DESCRIBE_STABILITY | SIFT_SCALE_SPACE | SIFT_DETECT | SIFT_ORIENTATION | SIFT_DESCRIBE

  /** How two descriptors are scored during association. */
  datatype Scorer = DEFAULT | EUCLIDEAN | HAMMING | SAD

  /** How RANSAC measures the residual of a pair against a candidate homography. */
  datatype ErrorMetric = RESIDUAL_SAMPSON | RESIDUAL_TRANSFER
}
