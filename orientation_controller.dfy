/**
 * `OrientationController`: the settings of the SIFT orientation estimator. Each setter stores its
 * value and runs `update()`, which validates the configuration built from the fields and
 * announces it to the listener.
 */
class OrientationController {
  static const DEFAULT_HISTOGRAM_SIZE: int := 36
  static const DEFAULT_SIGMA_TO_RADIUS: real := 2.5
  static const DEFAULT_SIGMA_ENLARGE: real := 1.5

  /** The state inherited from `BaseController`. */
  const base: BaseController

  var histogramSize: int
  var sigmaToRadius: real
  var sigmaEnlarge: real

  /** `getCurrentConfiguration()`: the configuration the fields describe. */
  function CurrentConfiguration(): Configuration
    reads this
  {
    ConfigSiftOrientation(histogramSize, sigmaToRadius, sigmaEnlarge)
  }

  /** The configuration of a freshly constructed controller. */
  static function DefaultConfiguration(): Configuration
  {
    ConfigSiftOrientation(DEFAULT_HISTOGRAM_SIZE, DEFAULT_SIGMA_TO_RADIUS, DEFAULT_SIGMA_ENLARGE)
  }

  /** `getConfigurationType()` */
  static function Kind(): ConfigurationType
  {
    SIFT_ORIENTATION
  }

  /** The field assignments of the constructor, which precede its call to `update()`. */
  constructor Init(listener: FeatureDetectionParams?, lib: Library)
    ensures fresh(base) && base.defaulted && base.configuration == None
    ensures base.listener == listener && base.lib == lib
    ensures CurrentConfiguration() == DefaultConfiguration()
  {
    base := new BaseController(listener, lib);
    histogramSize := DEFAULT_HISTOGRAM_SIZE;
    sigmaToRadius := DEFAULT_SIGMA_TO_RADIUS;
    sigmaEnlarge := DEFAULT_SIGMA_ENLARGE;
  }

  /**
   * `new OrientationController(listener)`: installs the defaults through `update()`; a refused
   * default (or a failure further down the chain) surfaces as `IllegalStateException`.
   */
  static method Create(listener: FeatureDetectionParams?, lib: Library)
    returns (r: Result<OrientationController>, ghost notices: seq<Notice>)
    modifies if listener == null then {} else listener.Footprint()
    ensures r.Success? ==> fresh(r.value) && fresh(r.value.base)
    ensures r.Success? ==> r.value.CurrentConfiguration() == DefaultConfiguration()
    ensures r.Success? ==> r.value.base.configuration == Some(DefaultConfiguration())
    ensures r.Success? ==> r.value.base.defaulted && r.value.base.listener == listener
    ensures r.Success? ==> r.value.base.lib == lib
    ensures lib.checkValidity(DefaultConfiguration()) ==>
      Announced(notices, listener, ConfigurationChanged(None, None, Kind())) &&
      (r.Success? || r.error == IllegalStateException) && (listener == null ==> r.Success?)
    ensures !lib.checkValidity(DefaultConfiguration()) ==>
      r == Failure(IllegalStateException) && notices == []
  {
    var c := new OrientationController.Init(listener, lib);
    var o;
    o, notices := c.Update();
    r := if o.Pass? then Success(c) else Failure(IllegalStateException);
  }

  /** `update()` with this controller's current configuration and type. */
  method Update() returns (r: Outcome, ghost notices: seq<Notice>)
    modifies base, base.Downstream()
    ensures base.defaulted == old(base.defaulted)
    ensures base.Installed(CurrentConfiguration(), Kind(), r, notices)
    ensures !base.lib.checkValidity(CurrentConfiguration()) ==> unchanged(old(base.Downstream()))
  {
    r, notices := base.Update(CurrentConfiguration(), Kind());
  }

  /** `setDefaulted(d)`, inherited from `BaseController`. */
  method SetDefaulted(d: bool) returns (r: Outcome, ghost notices: seq<Notice>)
    modifies base, base.Downstream()
    ensures base.defaulted == d && base.listener == old(base.listener)
    ensures old(base.defaulted) == d ==> r == Pass && notices == [] && unchanged(base)
    ensures old(base.defaulted) == d || !base.lib.checkValidity(CurrentConfiguration()) ==>
      unchanged(old(base.Downstream()))
    ensures old(base.defaulted) != d && base.lib.checkValidity(CurrentConfiguration()) ==>
      base.Installed(CurrentConfiguration(), Kind(), r, notices)
    ensures old(base.defaulted) != d && !base.lib.checkValidity(CurrentConfiguration()) ==>
      r == Pass && notices == [] && base.configuration == old(base.configuration)
  {
    r, notices := base.SetDefaulted(d, CurrentConfiguration(), Kind());
  }

  /** `setHistogramSize`: a no-op for the current value; otherwise stores it and runs `update()`. */
  method SetHistogramSize(v: int) returns (r: Outcome, ghost notices: seq<Notice>)
    modifies this, base, base.Downstream()
    ensures base.defaulted == old(base.defaulted)
    ensures CurrentConfiguration() == ConfigSiftOrientation(v, old(sigmaToRadius), old(sigmaEnlarge))
    ensures old(histogramSize) == v ==>
      r == Pass && notices == [] && unchanged(base) && unchanged(old(base.Downstream()))
    ensures old(histogramSize) != v ==> base.Installed(CurrentConfiguration(), Kind(), r, notices)
    ensures old(histogramSize) != v && !base.lib.checkValidity(CurrentConfiguration()) ==>
      unchanged(old(base.Downstream()))
  {
    if histogramSize == v {
      return Pass, [];
    }
    histogramSize := v;
    r, notices := Update();
  }

  /** `setSigmaToRadius`: a no-op for the current value; otherwise stores it and runs `update()`. */
  method SetSigmaToRadius(v: real) returns (r: Outcome, ghost notices: seq<Notice>)
    modifies this, base, base.Downstream()
    ensures base.defaulted == old(base.defaulted)
    ensures CurrentConfiguration() == ConfigSiftOrientation(old(histogramSize), v, old(sigmaEnlarge))
    ensures old(sigmaToRadius) == v ==>
      r == Pass && notices == [] && unchanged(base) && unchanged(old(base.Downstream()))
    ensures old(sigmaToRadius) != v ==> base.Installed(CurrentConfiguration(), Kind(), r, notices)
    ensures old(sigmaToRadius) != v && !base.lib.checkValidity(CurrentConfiguration()) ==>
      unchanged(old(base.Downstream()))
  {
    if sigmaToRadius == v {
      return Pass, [];
    }
    sigmaToRadius := v;
    r, notices := Update();
  }

  /** `setSigmaEnlarge`: a no-op for the current value; otherwise stores it and runs `update()`. */
  method SetSigmaEnlarge(v: real) returns (r: Outcome, ghost notices: seq<Notice>)
    modifies this, base, base.Downstream()
    ensures base.defaulted == old(base.defaulted)
    ensures CurrentConfiguration() == ConfigSiftOrientation(old(histogramSize), old(sigmaToRadius), v)
    ensures old(sigmaEnlarge) == v ==>
      r == Pass && notices == [] && unchanged(base) && unchanged(old(base.Downstream()))
    ensures old(sigmaEnlarge) != v ==> base.Installed(CurrentConfiguration(), Kind(), r, notices)
    ensures old(sigmaEnlarge) != v && !base.lib.checkValidity(CurrentConfiguration()) ==>
      unchanged(old(base.Downstream()))
  {
    if sigmaEnlarge == v {
      return Pass, [];
    }
    sigmaEnlarge := v;
    r, notices := Update();
  }

  /** `equals`, inherited from `BaseController`: the fields are not compared. */
  predicate Equals(that: OrientationController)
    reads base, that.base
    ensures this == that ==> Equals(that)
    ensures Equals(that) <==>
      base.defaulted == that.base.defaulted && base.configuration == that.base.configuration
  {
    base.Equals(that.base)
  }

  /** `hashCode`, inherited from `BaseController`. */
  function HashCode(h: Hashes): (r: int)
    requires base.configuration.Some?
    ensures IsInt32(r)
    reads base
  {
    base.HashCode(h)
  }
}

/** `equals` and `hashCode` agree: equal controllers hash equally. */
lemma EqualOrientationControllersHashEqually(a: OrientationController, b: OrientationController, h: Hashes)
  requires a.base.configuration.Some? && a.Equals(b)
  ensures b.base.configuration.Some? && a.HashCode(h) == b.HashCode(h)
{
}
