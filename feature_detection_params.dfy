/**
 * The controllers a parameter set is built from: the abstract `FeatureDetectionParams` has
 * three concrete subclasses (`SiftParams`, `FastSurfParams`, `StableSurfParams`), and the
 * controllers are all that tells them apart.
 */
datatype Controllers =
  | SiftControllers(scaleSpace: ScaleSpaceController, detector: DetectorController,
                    orientation: OrientationController, describer: DescribeController)
  | FastSurfControllers(fastHessian: FastHessianController, speed: SurfDescriptorSpeedController,
                        averageIntegral: AverageIntegralController)
  | StableSurfControllers(fastHessian: FastHessianController,
                          stability: SurfDescriptorStabilityController,
                          slidingIntegral: SlidingIntegralController)
{
  /** The inherited controller state of every controller. */
  ghost function Bases(): set<BaseController>
  {
    match this
    case SiftControllers(a, b, c, d) => {a.base, b.base, c.base, d.base}
    case FastSurfControllers(a, b, c) => {a.base, b.base, c.base}
    case StableSurfControllers(a, b, c) => {a.base, b.base, c.base}
  }

  /** The controllers and their inherited state. */
  ghost function Objects(): set<object>
  {
    Bases() +
    match this
    case SiftControllers(a, b, c, d) => {a, b, c, d}
    case FastSurfControllers(a, b, c) => {a, b, c}
    case StableSurfControllers(a, b, c) => {a, b, c}
  }
}

/** The five association settings `FeatureDetectionParams` keeps in its own fields. */
datatype DetectionSettings = DetectionSettings(scorer: Scorer, squareEuclidian: bool,
                                               backwardsValidation: bool, maxDistance: real,
                                               maxFeatures: int)

/**
 * `FeatureDetectionParams` and its three subclasses: the association settings, the
 * controllers of the detector and describer, and the lazily built detector and associator,
 * which are rebuilt and announced to the listener whenever a setting changes.
 */
class FeatureDetectionParams {
  static const DEFAULT_SCORER: Scorer := DEFAULT
  static const DEFAULT_SQUARE_EUCLIDEAN: bool := false
  static const DEFAULT_BACKWARDS_VALIDATION: bool := true
  /** `Double.MAX_VALUE` */
  static const DEFAULT_MAX_DISTANCE: real :=
    179769313486231570814527423731704356798070567525844996598917476803157260780028538760589558632766878171540458953514382464234321326889464182768467546703537516986049910576551282076245490090389328944075868508455133942304583236903222948165808559332123348274797826204144723168738177180919299881250404026184124858368.0
  static const DEFAULT_MAX_FEATURES: int := 100

  /** The subclass and its controllers. */
  const controllers: Controllers

  var scorer: Scorer
  var squareEuclidian: bool
  var backwardsValidation: bool
  var maxDistance: real
  var maxFeatures: int
  /** `listener`: the image-point associator told about new detectors and associators. */
  var listener: ImagePointAssociator?
  var currentDetDesc: DetectDescribe?
  var currentAssociater: Associater?

  /** The settings of a fresh parameter set. */
  static function DefaultSettings(): DetectionSettings
  {
    DetectionSettings(DEFAULT_SCORER, DEFAULT_SQUARE_EUCLIDEAN, DEFAULT_BACKWARDS_VALIDATION,
                      DEFAULT_MAX_DISTANCE, DEFAULT_MAX_FEATURES)
  }

  /** The association settings held in the fields. */
  function Settings(): DetectionSettings
    reads this
  {
    DetectionSettings(scorer, squareEuclidian, backwardsValidation, maxDistance, maxFeatures)
  }

  /** `checkRep()`: a positive maximum distance and a positive feature count. */
  ghost predicate Valid()
    reads this
  {
    maxDistance > 0.0 && maxFeatures > 0
  }

  /** The objects a change of this parameter set may touch: itself and its listener's. */
  ghost function Footprint(): set<object>
    reads this, listener
  {
    {this} + if listener == null then {} else listener.Footprint()
  }

  /** The settings and the listener are as they were. */
  twostate predicate SameSettings()
    reads this
  {
    Settings() == old(Settings()) && listener == old(listener)
  }

  /** As `SameSettings`, and a detector or associator already built is still the one kept. */
  twostate predicate CachesOnlyFilled()
    reads this
  {
    SameSettings() &&
    (old(currentDetDesc) != null ==> currentDetDesc == old(currentDetDesc)) &&
    (old(currentAssociater) != null ==> currentAssociater == old(currentAssociater))
  }

  /** `protected FeatureDetectionParams()`: the default settings and no detector yet. */
  constructor (controllers: Controllers)
    ensures this.controllers == controllers && Settings() == DefaultSettings()
    ensures listener == null && currentDetDesc == null && currentAssociater == null
    ensures Valid()
  {
    this.controllers := controllers;
    scorer := DEFAULT_SCORER;
    squareEuclidian := DEFAULT_SQUARE_EUCLIDEAN;
    backwardsValidation := DEFAULT_BACKWARDS_VALIDATION;
    maxDistance := DEFAULT_MAX_DISTANCE;
    maxFeatures := DEFAULT_MAX_FEATURES;
    listener := null;
    currentDetDesc := null;
    currentAssociater := null;
  }

  /** `SiftParams.getScaleSpace()`: the configuration installed in the scale-space controller. */
  function ScaleSpace(): Option<Configuration>
    requires controllers.SiftControllers?
    reads controllers.scaleSpace.base
  {
    controllers.scaleSpace.base.configuration
  }

  /** `SiftParams.getDetector()` */
  function Detector(): Option<Configuration>
    requires controllers.SiftControllers?
    reads controllers.detector.base
  {
    controllers.detector.base.configuration
  }

  /** `SiftParams.getOrientation()` */
  function Orientation(): Option<Configuration>
    requires controllers.SiftControllers?
    reads controllers.orientation.base
  {
    controllers.orientation.base.configuration
  }

  /** `SiftParams.getDescriber()` */
  function Describer(): Option<Configuration>
    requires controllers.SiftControllers?
    reads controllers.describer.base
  {
    controllers.describer.base.configuration
  }

  /** `SurfParams.getFastHessian()` */
  function FastHessian(): Option<Configuration>
    requires !controllers.SiftControllers?
    reads controllers.fastHessian.base
  {
    controllers.fastHessian.base.configuration
  }

  /** `FastSurfParams.getSpeed()` */
  function Speed(): Option<Configuration>
    requires controllers.FastSurfControllers?
    reads controllers.speed.base
  {
    controllers.speed.base.configuration
  }

  /** `FastSurfParams.getAverageIntegral()` */
  function AverageIntegral(): Option<Configuration>
    requires controllers.FastSurfControllers?
    reads controllers.averageIntegral.base
  {
    controllers.averageIntegral.base.configuration
  }

  /** `StableSurfParams.getStability()` */
  function Stability(): Option<Configuration>
    requires controllers.StableSurfControllers?
    reads controllers.stability.base
  {
    controllers.stability.base.configuration
  }

  /** `StableSurfParams.getSlidingIntegral()` */
  function SlidingIntegral(): Option<Configuration>
    requires controllers.StableSurfControllers?
    reads controllers.slidingIntegral.base
  {
    controllers.slidingIntegral.base.configuration
  }

  /**
   * `createNewDetectorAndDescriber()`: the `FactoryDetectDescribe` call of the subclass,
   * given the configurations its controllers have installed.
   */
  function CurrentSetup(): DetectorSetup
    reads controllers.Bases()
  {
    match controllers
    case SiftControllers(_, _, _, _) =>
      SiftSetup(ScaleSpace(), Detector(), Orientation(), Describer())
    case FastSurfControllers(_, _, _) =>
      FastSurfSetup(FastHessian(), Speed(), AverageIntegral())
    case StableSurfControllers(_, _, _) =>
      StableSurfSetup(FastHessian(), Stability(), SlidingIntegral())
  }

  /** `getScorer()`: the chosen scorer; only the Euclidean one can be squared. */
  function Score(): ScoreFunction
    reads this
  {
    ScoreFunction(scorer, scorer == EUCLIDEAN && squareEuclidian)
  }

  /** What `FactoryAssociation.greedy(getScorer(), getMaxDistance(), isBackwardsValidated())` gets. */
  function AssociaterSettings(): AssociaterSetup
    reads this
  {
    AssociaterSetup(Score(), maxDistance, backwardsValidation)
  }

  /**
   * A detector is kept: the one there was, or, when there was none, a new one built from
   * the controllers' current configurations.
   */
  twostate predicate DetectorReady()
    reads this, controllers.Bases()
  {
    currentDetDesc != null &&
    (old(currentDetDesc) != null ==> currentDetDesc == old(currentDetDesc)) &&
    (old(currentDetDesc) == null ==> fresh(currentDetDesc) && currentDetDesc.setup == CurrentSetup())
  }

  /**
   * `updateAssociater()` has run: a new associator built from the current settings is kept
   * (after a detector was made ready for the scorer) and announced to the listener.
   */
  twostate predicate AssociaterRebuilt(r: Outcome, new notices: seq<Notice>)
    reads this, controllers.Bases()
  {
    listener == old(listener) &&
    currentAssociater != null && fresh(currentAssociater) &&
    currentAssociater.setup == AssociaterSettings() &&
    DetectorReady() &&
    Announced(notices, listener, AssociaterChanged(currentAssociater, old(currentAssociater))) &&
    (r == Pass || r == Fail(IllegalStateException)) && (listener == null ==> r == Pass)
  }

  /** `getCurrentDetDesc()`: builds the detector on first use and keeps it. */
  method GetCurrentDetDesc() returns (d: DetectDescribe)
    modifies this
    ensures SameSettings() && currentAssociater == old(currentAssociater)
    ensures DetectorReady() && d == currentDetDesc
  {
    if currentDetDesc == null {
      currentDetDesc := new DetectDescribe(CurrentSetup());
    }
    d := currentDetDesc;
  }

  /** `getScorer()`: the scoring function, after making sure a detector exists. */
  method GetScorer() returns (s: ScoreFunction)
    modifies this
    ensures SameSettings() && currentAssociater == old(currentAssociater)
    ensures DetectorReady()
    ensures s.scorer == scorer && (s.squared <==> scorer == EUCLIDEAN && squareEuclidian)
  {
    var _ := GetCurrentDetDesc();
    s := Score();
  }

  /** `getCurrentAssociater()`: builds the associator on first use and keeps it. */
  method GetCurrentAssociater() returns (a: Associater)
    modifies this
    ensures SameSettings() && a == currentAssociater
    ensures old(currentAssociater) != null ==> a == old(currentAssociater) && unchanged(this)
    ensures old(currentAssociater) == null ==>
      fresh(a) && a.setup == AssociaterSettings() && DetectorReady()
  {
    if currentAssociater == null {
      var s := GetScorer();
      currentAssociater := new Associater(AssociaterSetup(s, maxDistance, backwardsValidation));
    }
    a := currentAssociater;
  }

  /**
   * `updateDetector()`: builds a new detector from the controllers, keeps it and tells the
   * listener (new, old). Only `IllegalStateException` can come back from the listener.
   */
  method UpdateDetector() returns (r: Outcome, ghost notices: seq<Notice>)
    modifies Footprint()
    ensures SameSettings()
    ensures currentDetDesc != null && fresh(currentDetDesc) && currentDetDesc.setup == CurrentSetup()
    ensures old(currentAssociater) != null ==> currentAssociater == old(currentAssociater)
    ensures Announced(notices, listener, DetDescChanged(currentDetDesc, old(currentDetDesc)))
    ensures (r == Pass || r == Fail(IllegalStateException)) && (listener == null ==> r == Pass)
    ensures old(Valid()) ==> Valid()
  {
    var oldVal := currentDetDesc;
    currentDetDesc := new DetectDescribe(CurrentSetup());
    r, notices := Pass, [];
    if listener != null {
      r, notices := TellDetDescChanged(oldVal);
    }
  }

  /** The listener call of `updateDetector()`; it leaves the controllers alone. */
  method TellDetDescChanged(oldVal: DetectDescribe?) returns (r: Outcome, ghost notices: seq<Notice>)
    requires listener != null && currentDetDesc != null
    modifies Footprint()
    ensures SameSettings() && currentDetDesc == old(currentDetDesc)
    ensures old(currentAssociater) != null ==> currentAssociater == old(currentAssociater)
    ensures unchanged(controllers.Bases())
    ensures Announced(notices, listener, DetDescChanged(currentDetDesc, oldVal))
    ensures r == Pass || r == Fail(IllegalStateException)
  {
    assert controllers.Bases() !! listener.Footprint();
    ghost var reaction;
    r, reaction := listener.OnDetDescChanged(currentDetDesc, oldVal);
    notices := [Notice(listener, DetDescChanged(currentDetDesc, oldVal), reaction)];
  }

  /** `updateAssociater()`: builds a new associator, keeps it and tells the listener. */
  method UpdateAssociater() returns (r: Outcome, ghost notices: seq<Notice>)
    modifies Footprint()
    ensures SameSettings() && AssociaterRebuilt(r, notices)
    ensures old(Valid()) ==> Valid()
  {
    var oldVal := currentAssociater;
    RebuildAssociater();
    r, notices := Pass, [];
    if listener != null {
      r, notices := TellAssociaterChanged(oldVal);
    }
  }

  /** The listener call of `updateAssociater()`; it leaves the controllers alone. */
  method TellAssociaterChanged(oldVal: Associater?) returns (r: Outcome, ghost notices: seq<Notice>)
    requires listener != null && currentDetDesc != null && currentAssociater != null
    modifies Footprint()
    ensures SameSettings()
    ensures currentDetDesc == old(currentDetDesc) && currentAssociater == old(currentAssociater)
    ensures unchanged(controllers.Bases())
    ensures Announced(notices, listener, AssociaterChanged(currentAssociater, oldVal))
    ensures r == Pass || r == Fail(IllegalStateException)
  {
    assert controllers.Bases() !! listener.Footprint();
    ghost var reaction;
    r, reaction := listener.OnDescriptorAssociaterChanged(currentAssociater, oldVal);
    notices := [Notice(listener, AssociaterChanged(currentAssociater, oldVal), reaction)];
  }

  /** The first half of `updateAssociater()`: a new associator from the current settings. */
  method RebuildAssociater()
    modifies this
    ensures SameSettings() && DetectorReady()
    ensures currentAssociater != null && fresh(currentAssociater)
    ensures currentAssociater.setup == AssociaterSettings()
  {
    var s := GetScorer();
    currentAssociater := new Associater(AssociaterSetup(s, maxDistance, backwardsValidation));
  }

  /** `onConfigurationChanged`: whichever controller changed, the detector is rebuilt. */
  method OnConfigurationChanged(newVal: Option<Configuration>, oldVal: Option<Configuration>,
                                kind: ConfigurationType)
    returns (r: Outcome, ghost notices: seq<Notice>)
    modifies Footprint()
    ensures SameSettings()
    ensures currentDetDesc != null && fresh(currentDetDesc) && currentDetDesc.setup == CurrentSetup()
    ensures old(currentAssociater) != null ==> currentAssociater == old(currentAssociater)
    ensures Announced(notices, listener, DetDescChanged(currentDetDesc, old(currentDetDesc)))
    ensures (r == Pass || r == Fail(IllegalStateException)) && (listener == null ==> r == Pass)
    ensures old(Valid()) ==> Valid()
  {
    r, notices := UpdateDetector();
  }

  /** `setListener(l)` */
  method SetListener(l: ImagePointAssociator?)
    modifies this
    ensures listener == l && Settings() == old(Settings())
    ensures currentDetDesc == old(currentDetDesc) && currentAssociater == old(currentAssociater)
  {
    listener := l;
  }

  /** `setScorer`: null is refused; an equal scorer changes nothing; otherwise rebuilds the associator. */
  method SetScorer(s: Option<Scorer>) returns (r: Outcome, ghost notices: seq<Notice>)
    modifies Footprint()
    ensures s.None? ==> r == Fail(NullPointerException) && notices == [] && unchanged(old(Footprint()))
    ensures s == Some(old(scorer)) ==> r == Pass && notices == [] && unchanged(old(Footprint()))
    ensures s.Some? && s.value != old(scorer) ==>
      Settings() == old(Settings()).(scorer := s.value) && AssociaterRebuilt(r, notices)
    ensures old(Valid()) ==> Valid()
  {
    if s.None? {
      return Fail(NullPointerException), [];
    }
    if s.value == scorer {
      return Pass, [];
    }
    scorer := s.value;
    r, notices := UpdateAssociater();
  }

  /** `setSquareEuclidian`: a no-op for the current value; otherwise rebuilds the associator. */
  method SetSquareEuclidian(b: bool) returns (r: Outcome, ghost notices: seq<Notice>)
    modifies Footprint()
    ensures b == old(squareEuclidian) ==> r == Pass && notices == [] && unchanged(old(Footprint()))
    ensures b != old(squareEuclidian) ==>
      Settings() == old(Settings()).(squareEuclidian := b) && AssociaterRebuilt(r, notices)
    ensures old(Valid()) ==> Valid()
  {
    if squareEuclidian == b {
      return Pass, [];
    }
    squareEuclidian := b;
    r, notices := UpdateAssociater();
  }

  /** `setBackwardsValidation`: a no-op for the current value; otherwise rebuilds the associator. */
  method SetBackwardsValidation(b: bool) returns (r: Outcome, ghost notices: seq<Notice>)
    modifies Footprint()
    ensures b == old(backwardsValidation) ==>
      r == Pass && notices == [] && unchanged(old(Footprint()))
    ensures b != old(backwardsValidation) ==>
      Settings() == old(Settings()).(backwardsValidation := b) && AssociaterRebuilt(r, notices)
    ensures old(Valid()) ==> Valid()
  {
    if backwardsValidation == b {
      return Pass, [];
    }
    backwardsValidation := b;
    r, notices := UpdateAssociater();
  }

  /**
   * `setMaxDistance`: a non-positive distance is refused with `IllegalArgumentException`;
   * the current value changes nothing; otherwise rebuilds the associator.
   */
  method SetMaxDistance(d: real) returns (r: Outcome, ghost notices: seq<Notice>)
    modifies Footprint()
    ensures d <= 0.0 ==>
      r == Fail(IllegalArgumentException) && notices == [] && unchanged(old(Footprint()))
    ensures d > 0.0 && d == old(maxDistance) ==>
      r == Pass && notices == [] && unchanged(old(Footprint()))
    ensures d > 0.0 && d != old(maxDistance) ==>
      Settings() == old(Settings()).(maxDistance := d) && AssociaterRebuilt(r, notices)
    ensures old(Valid()) ==> Valid()
  {
    if d <= 0.0 {
      return Fail(IllegalArgumentException), [];
    }
    if maxDistance == d {
      return Pass, [];
    }
    maxDistance := d;
    r, notices := UpdateAssociater();
  }

  /**
   * `setMaxFeatures`: a non-positive count is refused with `IllegalArgumentException`; the
   * current value changes nothing; otherwise the associator is rebuilt, although the count
   * is not one of its settings.
   */
  method SetMaxFeatures(n: int) returns (r: Outcome, ghost notices: seq<Notice>)
    modifies Footprint()
    ensures n <= 0 ==>
      r == Fail(IllegalArgumentException) && notices == [] && unchanged(old(Footprint()))
    ensures n > 0 && n == old(maxFeatures) ==>
      r == Pass && notices == [] && unchanged(old(Footprint()))
    ensures n > 0 && n != old(maxFeatures) ==>
      Settings() == old(Settings()).(maxFeatures := n) && AssociaterRebuilt(r, notices)
    ensures old(Valid()) ==> Valid()
  {
    if n <= 0 {
      return Fail(IllegalArgumentException), [];
    }
    if maxFeatures == n {
      return Pass, [];
    }
    maxFeatures := n;
    r, notices := UpdateAssociater();
  }


  /**
   * `p` is a parameter set wired over `cs`: default settings, no listener, no detector or
   * associator yet, and every controller reporting to `p`.
   */
  static ghost predicate Wired(p: FeatureDetectionParams, cs: Controllers)
    reads p, cs.Bases()
  {
    p.controllers == cs && p.Settings() == DefaultSettings() &&
    p.listener == null && p.currentDetDesc == null && p.currentAssociater == null &&
    forall b | b in cs.Bases() :: b.listener == p
  }

  /**
   * `new SiftParams(scaleSpace, detector, orientation, describer)`: a null controller is
   * refused before anything changes; otherwise the controllers are kept and each is made to
   * report to the new parameter set.
   */
  static method NewSift(ss: ScaleSpaceController?, det: DetectorController?,
                        ori: OrientationController?, desc: DescribeController?)
    returns (r: Result<FeatureDetectionParams>)
    modifies if ss == null || det == null || ori == null || desc == null then {}
             else {ss.base, det.base, ori.base, desc.base}
    ensures ss == null || det == null || ori == null || desc == null ==>
      r == Failure(NullPointerException)
    ensures ss != null && det != null && ori != null && desc != null ==>
      r.Success? && fresh(r.value) && Wired(r.value, SiftControllers(ss, det, ori, desc)) &&
      forall b | b in SiftControllers(ss, det, ori, desc).Bases() ::
        b.defaulted == old(b.defaulted) && b.configuration == old(b.configuration)
  {
    if ss == null || det == null || ori == null || desc == null {
      return Failure(NullPointerException);
    }
    var p := new FeatureDetectionParams(SiftControllers(ss, det, ori, desc));
    ss.base.SetListener(p);
    det.base.SetListener(p);
    ori.base.SetListener(p);
    desc.base.SetListener(p);
    r := Success(p);
  }

  /**
   * `new SiftParams()`: four default controllers, built without a listener, then wired as
   * above. A controller whose defaults are refused makes the construction fail with
   * `IllegalStateException`.
   */
  static method NewDefaultSift(lib: Library) returns (r: Result<FeatureDetectionParams>)
    ensures r.Success? <==>
      lib.checkValidity(ScaleSpaceController.DefaultConfiguration()) &&
      lib.checkValidity(DetectorController.DefaultConfiguration()) &&
      lib.checkValidity(OrientationController.DefaultConfiguration()) &&
      lib.checkValidity(DescribeController.DefaultConfiguration())
    ensures r.Failure? ==> r.error == IllegalStateException
    ensures r.Success? ==>
      r.value.controllers.SiftControllers? && fresh(r.value) && Wired(r.value, r.value.controllers) &&
      r.value.ScaleSpace() == Some(ScaleSpaceController.DefaultConfiguration()) &&
      r.value.Detector() == Some(DetectorController.DefaultConfiguration()) &&
      r.value.Orientation() == Some(OrientationController.DefaultConfiguration()) &&
      r.value.Describer() == Some(DescribeController.DefaultConfiguration())
  {
    ghost var n;
    var ss, det, ori, desc;
    ss, n := ScaleSpaceController.Create(null, lib);
    if ss.Failure? {
      return Failure(ss.error);
    }
    det, n := DetectorController.Create(null, lib);
    if det.Failure? {
      return Failure(det.error);
    }
    ori, n := OrientationController.Create(null, lib);
    if ori.Failure? {
      return Failure(ori.error);
    }
    desc, n := DescribeController.Create(null, lib);
    if desc.Failure? {
      return Failure(desc.error);
    }
    r := NewSift(ss.value, det.value, ori.value, desc.value);
  }

  /**
   * `new FastSurfParams(fastHessian, speed, avgIntegral)`: a null controller is refused;
   * otherwise the controllers are kept and each reports to the new parameter set.
   */
  static method NewFastSurf(fh: FastHessianController?, speed: SurfDescriptorSpeedController?,
                            avg: AverageIntegralController?)
    returns (r: Result<FeatureDetectionParams>)
    modifies if fh == null || speed == null || avg == null then {}
             else {fh.base, speed.base, avg.base}
    ensures fh == null || speed == null || avg == null ==> r == Failure(NullPointerException)
    ensures fh != null && speed != null && avg != null ==>
      r.Success? && fresh(r.value) && Wired(r.value, FastSurfControllers(fh, speed, avg)) &&
      forall b | b in FastSurfControllers(fh, speed, avg).Bases() ::
        b.defaulted == old(b.defaulted) && b.configuration == old(b.configuration)
  {
    if fh == null || speed == null || avg == null {
      return Failure(NullPointerException);
    }
    var p := new FeatureDetectionParams(FastSurfControllers(fh, speed, avg));
    fh.base.SetListener(p);
    speed.base.SetListener(p);
    avg.base.SetListener(p);
    r := Success(p);
  }

  /** `new FastSurfParams()`: three default controllers, wired as above. */
  static method NewDefaultFastSurf(lib: Library) returns (r: Result<FeatureDetectionParams>)
    ensures r.Success? <==>
      lib.checkValidity(FastHessianController.DefaultConfiguration()) &&
      lib.checkValidity(SurfDescriptorSpeedController.DefaultConfiguration()) &&
      lib.checkValidity(AverageIntegralController.DefaultConfiguration())
    ensures r.Failure? ==> r.error == IllegalStateException
    ensures r.Success? ==>
      r.value.controllers.FastSurfControllers? && fresh(r.value) && Wired(r.value, r.value.controllers) &&
      r.value.FastHessian() == Some(FastHessianController.DefaultConfiguration()) &&
      r.value.Speed() == Some(SurfDescriptorSpeedController.DefaultConfiguration()) &&
      r.value.AverageIntegral() == Some(AverageIntegralController.DefaultConfiguration())
  {
    ghost var n;
    var fh, speed, avg;
    fh, n := FastHessianController.Create(null, lib);
    if fh.Failure? {
      return Failure(fh.error);
    }
    speed, n := SurfDescriptorSpeedController.Create(null, lib);
    if speed.Failure? {
      return Failure(speed.error);
    }
    avg, n := AverageIntegralController.Create(null, lib);
    if avg.Failure? {
      return Failure(avg.error);
    }
    r := NewFastSurf(fh.value, speed.value, avg.value);
  }

  /**
   * `new StableSurfParams(fastHessian, stability, slidingIntegral)`: a null controller is
   * refused; otherwise the controllers are kept and each reports to the new parameter set.
   */
  static method NewStableSurf(fh: FastHessianController?,
                              stability: SurfDescriptorStabilityController?,
                              sliding: SlidingIntegralController?)
    returns (r: Result<FeatureDetectionParams>)
    modifies if fh == null || stability == null || sliding == null then {}
             else {fh.base, stability.base, sliding.base}
    ensures fh == null || stability == null || sliding == null ==>
      r == Failure(NullPointerException)
    ensures fh != null && stability != null && sliding != null ==>
      r.Success? && fresh(r.value) && Wired(r.value, StableSurfControllers(fh, stability, sliding)) &&
      forall b | b in StableSurfControllers(fh, stability, sliding).Bases() ::
        b.defaulted == old(b.defaulted) && b.configuration == old(b.configuration)
  {
    if fh == null || stability == null || sliding == null {
      return Failure(NullPointerException);
    }
    var p := new FeatureDetectionParams(StableSurfControllers(fh, stability, sliding));
    fh.base.SetListener(p);
    stability.base.SetListener(p);
    sliding.base.SetListener(p);
    r := Success(p);
  }

  /** `new StableSurfParams()`: three default controllers, wired as above. */
  static method NewDefaultStableSurf(lib: Library) returns (r: Result<FeatureDetectionParams>)
    ensures r.Success? <==>
      lib.checkValidity(FastHessianController.DefaultConfiguration()) &&
      lib.checkValidity(SurfDescriptorStabilityController.DefaultConfiguration()) &&
      lib.checkValidity(SlidingIntegralController.DefaultConfiguration())
    ensures r.Failure? ==> r.error == IllegalStateException
    ensures r.Success? ==>
      r.value.controllers.StableSurfControllers? && fresh(r.value) && Wired(r.value, r.value.controllers) &&
      r.value.FastHessian() == Some(FastHessianController.DefaultConfiguration()) &&
      r.value.Stability() == Some(SurfDescriptorStabilityController.DefaultConfiguration()) &&
      r.value.SlidingIntegral() == Some(SlidingIntegralController.DefaultConfiguration())
  {
    ghost var n;
    var fh, stability, sliding;
    fh, n := FastHessianController.Create(null, lib);
    if fh.Failure? {
      return Failure(fh.error);
    }
    stability, n := SurfDescriptorStabilityController.Create(null, lib);
    if stability.Failure? {
      return Failure(stability.error);
    }
    sliding, n := SlidingIntegralController.Create(null, lib);
    if sliding.Failure? {
      return Failure(sliding.error);
    }
    r := NewStableSurf(fh.value, stability.value, sliding.value);
  }

  /**
   * `equals` of the concrete subclass. Both SURF variants compare the five settings and
   * their controllers; `SiftParams` compares only its controllers.
   */
  predicate Equals(that: FeatureDetectionParams)
    reads this, that, controllers.Objects(), that.controllers.Objects()
    ensures this == that ==> Equals(that)
  {
    match controllers
    case SiftControllers(ss, det, ori, desc) =>
      that.controllers.SiftControllers? &&
      desc.Equals(that.controllers.describer) && det.Equals(that.controllers.detector) &&
      ori.Equals(that.controllers.orientation) && ss.Equals(that.controllers.scaleSpace)
    case FastSurfControllers(fh, speed, avg) =>
      that.controllers.FastSurfControllers? &&
      Settings() == that.Settings() && fh.Equals(that.controllers.fastHessian) &&
      avg.Equals(that.controllers.averageIntegral) && speed.Equals(that.controllers.speed)
    case StableSurfControllers(fh, stability, sliding) =>
      that.controllers.StableSurfControllers? &&
      Settings() == that.Settings() && fh.Equals(that.controllers.fastHessian) &&
      stability.Equals(that.controllers.stability) &&
      sliding.Equals(that.controllers.slidingIntegral)
  }

  /** Every controller has installed a configuration, as each has once it is constructed. */
  ghost predicate Configured()
    reads controllers.Bases()
  {
    forall b | b in controllers.Bases() :: b.configuration.Some?
  }

  /** `FeatureDetectionParams.hashCode`: the five settings, in Java `int` arithmetic. */
  function SettingsHash(h: Hashes): (r: int)
    reads this
    ensures IsInt32(r)
  {
    Hash31(Hash31(Hash31(Hash31(h.ofScorer(scorer), BoolHash(squareEuclidian)),
                         BoolHash(backwardsValidation)), h.ofDouble(maxDistance)), maxFeatures)
  }

  /**
   * `hashCode` of the concrete subclass: the SURF variants extend the settings hash with
   * their controllers' hashes; `SiftParams` combines only its controllers' hashes.
   */
  function HashCode(h: Hashes): (r: int)
    requires Configured()
    reads this, controllers.Bases(), controllers.Objects()
    ensures IsInt32(r)
  {
    match controllers
    case SiftControllers(ss, det, ori, desc) =>
      Hash31(Hash31(Hash31(ss.HashCode(h), det.HashCode(h)), ori.HashCode(h)), desc.HashCode(h))
    case FastSurfControllers(fh, speed, avg) =>
      Hash31(Hash31(Hash31(SettingsHash(h), fh.HashCode(h)), speed.HashCode(h)), avg.HashCode(h))
    case StableSurfControllers(fh, stability, sliding) =>
      Hash31(Hash31(Hash31(SettingsHash(h), fh.HashCode(h)), stability.HashCode(h)),
             sliding.HashCode(h))
  }
}

/** Equal parameter sets have equal hash codes. */
lemma EqualParamsHashEqually(p: FeatureDetectionParams, q: FeatureDetectionParams, h: Hashes)
  requires p.Configured() && q.Configured() && p.Equals(q)
  ensures p.HashCode(h) == q.HashCode(h)
{
}

/** `SiftParams.equals` ignores the five association settings: only the controllers count. */
lemma SiftEqualityIgnoresSettings(p: FeatureDetectionParams, q: FeatureDetectionParams)
  requires p.controllers.SiftControllers? && q.controllers == p.controllers
  ensures p.Equals(q)
{
}
