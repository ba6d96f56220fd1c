/**
 * The parts of BoofCV, georegression, DDogleg, EJML and AWT the core calls into.
 *
 * Their values are opaque types. The objects the core caches and compares by reference are
 * classes whose constant fields record what they were built from. The algorithms are the
 * fields of `Library`, a value the core's objects are given when they are built; each is a
 * function of the settings of the object that runs it (detection of the configurations the
 * detector was built from, the solver of its normalization flag). Two guarantees of those
 * algorithms are kept as subset types: association returns indexes into its inputs, and
 * RANSAC's inlier set is drawn from the matches it is given.
 */
module Foreign {
  import opened Wrappers
  import opened Configurations

  /** An AWT image supplied by the caller (compared by reference in the source). */
  type BufferedImage(==, !new)
  /** The grey-scale image BoofCV works on. */
  type ImageFloat32(==, !new)
  /** A 2-D point in pixel coordinates. */
  type Point2D(==, !new)
  /** A feature description. */
  type SurfFeature(==, !new)
  /** A 3x3 homography matrix. */
  type Matrix(==, !new)

  /** One detected feature: where it is and how it is described. */
  datatype Feature = Feature(location: Point2D, description: SurfFeature)

  /** A point seen in the reference image paired with a point seen in the other image. */
  datatype AssociatedPair = AssociatedPair(p1: Point2D, p2: Point2D)

  /** A match between source descriptor `src` and destination descriptor `dst`. */
  datatype AssociatedIndex = AssociatedIndex(src: int, dst: int)

  /** The configurations a combined detector and describer was built from. */
  datatype DetectorSetup =
    | SiftSetup(scaleSpace: Option<Configuration>, detector: Option<Configuration>,
                orientation: Option<Configuration>, describer: Option<Configuration>)
    | FastSurfSetup(fastHessian: Option<Configuration>, speed: Option<Configuration>,
                    averageIntegral: Option<Configuration>)
    | StableSurfSetup(fastHessian: Option<Configuration>, stability: Option<Configuration>,
                      slidingIntegral: Option<Configuration>)

  /** `DetectDescribePoint`: built by a `FactoryDetectDescribe` call. */
  class DetectDescribe {
    const setup: DetectorSetup

    constructor (setup: DetectorSetup)
      ensures this.setup == setup
    {
      this.setup := setup;
    }
  }

  /**
   * The scoring function chosen for a describer's descriptors: the scorer, and whether the
   * Euclidean score is squared (always false for the other scorers).
   */
  datatype ScoreFunction = ScoreFunction(scorer: Scorer, squared: bool)

  /** What a greedy associator is built from. */
  datatype AssociaterSetup = AssociaterSetup(score: ScoreFunction, maxDistance: real,
                                             backwardsValidation: bool)

  /** `AssociateDescription`: the greedy associator built by `FactoryAssociation.greedy`. */
  class Associater {
    const setup: AssociaterSetup

    constructor (setup: AssociaterSetup)
      ensures this.setup == setup
    {
      this.setup := setup;
    }
  }

  /** `Estimate1ofEpipolar`: the linear homography estimator. */
  class HomographyComputer {
    const normalize: bool

    constructor (normalize: bool)
      ensures this.normalize == normalize
    {
      this.normalize := normalize;
    }
  }

  /** `Ransac`: the robust estimator that selects inliers. */
  class ModelMatcher {
    const seed: int
    const generator: HomographyComputer
    const metric: ErrorMetric
    const iterations: int
    const threshold: real

    constructor (seed: int, generator: HomographyComputer, metric: ErrorMetric,
                 iterations: int, threshold: real)
      ensures this.seed == seed && this.generator == generator && this.metric == metric
      ensures this.iterations == iterations && this.threshold == threshold
    {
      this.seed := seed;
      this.generator := generator;
      this.metric := metric;
      this.iterations := iterations;
      this.threshold := threshold;
    }

    /** The settings this matcher runs with. */
    function Setup(): MatcherSetup
    {
      MatcherSetup(seed, generator.normalize, metric, iterations, threshold)
    }
  }

  /** The settings of a RANSAC matcher, the estimator's normalization included. */
  datatype MatcherSetup = MatcherSetup(seed: int, normalize: bool, metric: ErrorMetric,
                                       iterations: int, threshold: real)

  /** Greedy association: every returned index addresses the descriptor lists it was given. */
  type AssociateFunction = f: (AssociaterSetup, seq<SurfFeature>, seq<SurfFeature>) -> seq<AssociatedIndex>
    | forall a, s, d, k :: 0 <= k < |f(a, s, d)| ==>
        0 <= f(a, s, d)[k].src < |s| && 0 <= f(a, s, d)[k].dst < |d|
    witness (a: AssociaterSetup, s: seq<SurfFeature>, d: seq<SurfFeature>) => []

  /** RANSAC: `None` when `process` fails, otherwise the match set, drawn from the input. */
  type RansacFunction = f: (MatcherSetup, seq<AssociatedPair>) -> Option<seq<AssociatedPair>>
    | forall m, ps, x :: f(m, ps).Some? && x in f(m, ps).value ==> x in ps
    witness (m: MatcherSetup, ps: seq<AssociatedPair>) => None

  /** What the estimator's `process` reports and the matrix it leaves behind. */
  datatype Solution = Solution(solved: bool, h: Matrix)

  /** The foreign algorithms, as functions of their inputs. */
  datatype Library = Library(
    checkValidity: Configuration -> bool,
    convert: BufferedImage -> ImageFloat32,
    detect: (DetectorSetup, ImageFloat32) -> seq<Feature>,
    associate: AssociateFunction,
    ransac: RansacFunction,
    solve: (bool, seq<AssociatedPair>) -> Solution)
}
