/**
 * `DetectorController`: the settings of the SIFT feature detector. Each setter stores its
 * value and runs `update()`, which validates the configuration built from the fields and
 * announces it to the listener.
 */
class DetectorController {
  static const DEFAULT_DETECT_THRESHOLD: real := 1.0
  static const DEFAULT_EXTRACT_RADIUS: int := 2
  static const DEFAULT_FEATURES_PER_SCALE: int := -1
  static const DEFAULT_EDGE_THRESHOLD: real := 5.0

  /** The state inherited from `BaseController`. */
  const base: BaseController

  var detectThreshold: real
  var extractRadius: int
  var featuresPerScale: int
  var edgeThreshold: real

  /** `getCurrentConfiguration()`: the configuration the fields describe. */
  function CurrentConfiguration(): Configuration
    reads this
  {
    ConfigSiftDetector(extractRadius, detectThreshold, featuresPerScale, edgeThreshold)
  }

  /** The configuration of a freshly constructed controller. */
  static function DefaultConfiguration(): Configuration
  {
    ConfigSiftDetector(DEFAULT_EXTRACT_RADIUS, DEFAULT_DETECT_THRESHOLD, DEFAULT_FEATURES_PER_SCALE, DEFAULT_EDGE_THRESHOLD)
  }

  /** `getConfigurationType()` */
  static function Kind(): ConfigurationType
  {
    SIFT_DETECT
  }

  /** The field assignments of the constructor, which precede its call to `update()`. */
  constructor Init(listener: FeatureDetectionParams?, lib: Library)
    ensures fresh(base) && base.defaulted && base.configuration == None
    ensures base.listener == listener && base.lib == lib
    ensures CurrentConfiguration() == DefaultConfiguration()
  {
    base := new BaseController(listener, lib);
    detectThreshold := DEFAULT_DETECT_THRESHOLD;
    extractRadius := DEFAULT_EXTRACT_RADIUS;
    featuresPerScale := DEFAULT_FEATURES_PER_SCALE;
    edgeThreshold := DEFAULT_EDGE_THRESHOLD;
  }

  /**
   * `new DetectorController(listener)`: installs the defaults through `update()`; a refused
   * default (or a failure further down the chain) surfaces as `IllegalStateException`.
   */
  static method Create(listener: FeatureDetectionParams?, lib: Library)
    returns (r: Result<DetectorController>, ghost notices: seq<Notice>)
    modifies if listener == null then {} else listener.Footprint()
    ensures r.Success? ==> fresh(r.value) && fresh(r.value.base)
    ensures r.Success? ==> r.value.CurrentConfiguration() == DefaultConfiguration()
    ensures r.Success? ==> r.value.base.configuration == Some(DefaultConfiguration())
    ensures r.Success? ==> r.value.base.defaulted && r.value.base.listener == listener
    ensures r.Success? ==> r.value.base.lib == lib
    ensures lib.checkValidity(DefaultConfiguration()) ==>
      Announced(notices, listener, ConfigurationChanged(None, None, Kind())) &&
      (r.Success? || r.error == IllegalStateException) && (listener == null ==> r.Success?)
    ensures !lib.checkValidity(DefaultConfiguration()) ==>
      r == Failure(IllegalStateException) && notices == []
  {
    var c := new DetectorController.Init(listener, lib);
    var o;
    o, notices := c.Update();
    r := if o.Pass? then Success(c) else Failure(IllegalStateException);
  }

  /** `update()` with this controller's current configuration and type. */
  method Update() returns (r: Outcome, ghost notices: seq<Notice>)
    modifies base, base.Downstream()
    ensures base.defaulted == old(base.defaulted)
    ensures base.Installed(CurrentConfiguration(), Kind(), r, notices)
    ensures !base.lib.checkValidity(CurrentConfiguration()) ==> unchanged(old(base.Downstream()))
  {
    r, notices := base.Update(CurrentConfiguration(), Kind());
  }

  /** `setDefaulted(d)`, inherited from `BaseController`. */
  method SetDefaulted(d: bool) returns (r: Outcome, ghost notices: seq<Notice>)
    modifies base, base.Downstream()
    ensures base.defaulted == d && base.listener == old(base.listener)
    ensures old(base.defaulted) == d ==> r == Pass && notices == [] && unchanged(base)
    ensures old(base.defaulted) == d || !base.lib.checkValidity(CurrentConfiguration()) ==>
      unchanged(old(base.Downstream()))
    ensures old(base.defaulted) != d && base.lib.checkValidity(CurrentConfiguration()) ==>
      base.Installed(CurrentConfiguration(), Kind(), r, notices)
    ensures old(base.defaulted) != d && !base.lib.checkValidity(CurrentConfiguration()) ==>
      r == Pass && notices == [] && base.configuration == old(base.configuration)
  {
    r, notices := base.SetDefaulted(d, CurrentConfiguration(), Kind());
  }

  /** `setDetectThreshold`: a no-op for the current value; otherwise stores it and runs `update()`. */
  method SetDetectThreshold(v: real) returns (r: Outcome, ghost notices: seq<Notice>)
    modifies this, base, base.Downstream()
    ensures base.defaulted == old(base.defaulted)
    ensures CurrentConfiguration() == ConfigSiftDetector(old(extractRadius), v, old(featuresPerScale), old(edgeThreshold))
    ensures old(detectThreshold) == v ==>
      r == Pass && notices == [] && unchanged(base) && unchanged(old(base.Downstream()))
    ensures old(detectThreshold) != v ==> base.Installed(CurrentConfiguration(), Kind(), r, notices)
    ensures old(detectThreshold) != v && !base.lib.checkValidity(CurrentConfiguration()) ==>
      unchanged(old(base.Downstream()))
  {
    if detectThreshold == v {
      return Pass, [];
    }
    detectThreshold := v;
    r, notices := Update();
  }

  /** `setExtractRadius`: a no-op for the current value; otherwise stores it and runs `update()`. */
  method SetExtractRadius(v: int) returns (r: Outcome, ghost notices: seq<Notice>)
    modifies this, base, base.Downstream()
    ensures base.defaulted == old(base.defaulted)
    ensures CurrentConfiguration() == ConfigSiftDetector(v, old(detectThreshold), old(featuresPerScale), old(edgeThreshold))
    ensures old(extractRadius) == v ==>
      r == Pass && notices == [] && unchanged(base) && unchanged(old(base.Downstream()))
    ensures old(extractRadius) != v ==> base.Installed(CurrentConfiguration(), Kind(), r, notices)
    ensures old(extractRadius) != v && !base.lib.checkValidity(CurrentConfiguration()) ==>
      unchanged(old(base.Downstream()))
  {
    if extractRadius == v {
      return Pass, [];
    }
    extractRadius := v;
    r, notices := Update();
  }

  /** `setFeaturesPerScale`: a no-op for the current value; otherwise stores it and runs `update()`. */
  method SetFeaturesPerScale(v: int) returns (r: Outcome, ghost notices: seq<Notice>)
    modifies this, base, base.Downstream()
    ensures base.defaulted == old(base.defaulted)
    ensures CurrentConfiguration() == ConfigSiftDetector(old(extractRadius), old(detectThreshold), v, old(edgeThreshold))
    ensures old(featuresPerScale) == v ==>
      r == Pass && notices == [] && unchanged(base) && unchanged(old(base.Downstream()))
    ensures old(featuresPerScale) != v ==> base.Installed(CurrentConfiguration(), Kind(), r, notices)
    ensures old(featuresPerScale) != v && !base.lib.checkValidity(CurrentConfiguration()) ==>
      unchanged(old(base.Downstream()))
  {
    if featuresPerScale == v {
      return Pass, [];
    }
    featuresPerScale := v;
    r, notices := Update();
  }

  /** `setEdgeThreshold`: a no-op for the current value; otherwise stores it and runs `update()`. */
  method SetEdgeThreshold(v: real) returns (r: Outcome, ghost notices: seq<Notice>)
    modifies this, base, base.Downstream()
    ensures base.defaulted == old(base.defaulted)
    ensures CurrentConfiguration() == ConfigSiftDetector(old(extractRadius), old(detectThreshold), old(featuresPerScale), v)
    ensures old(edgeThreshold) == v ==>
      r == Pass && notices == [] && unchanged(base) && unchanged(old(base.Downstream()))
    ensures old(edgeThreshold) != v ==> base.Installed(CurrentConfiguration(), Kind(), r, notices)
    ensures old(edgeThreshold) != v && !base.lib.checkValidity(CurrentConfiguration()) ==>
      unchanged(old(base.Downstream()))
  {
    if edgeThreshold == v {
      return Pass, [];
    }
    edgeThreshold := v;
    r, notices := Update();
  }

  /** `equals`, inherited from `BaseController`: the fields are not compared. */
  predicate Equals(that: DetectorController)
    reads base, that.base
    ensures this == that ==> Equals(that)
    ensures Equals(that) <==>
      base.defaulted == that.base.defaulted && base.configuration == that.base.configuration
  {
    base.Equals(that.base)
  }

  /** `hashCode`, inherited from `BaseController`. */
  function HashCode(h: Hashes): (r: int)
    requires base.configuration.Some?
    ensures IsInt32(r)
    reads base
  {
    base.HashCode(h)
  }
}

/** `equals` and `hashCode` agree: equal controllers hash equally. */
lemma EqualDetectorControllersHashEqually(a: DetectorController, b: DetectorController, h: Hashes)
  requires a.base.configuration.Some? && a.Equals(b)
  ensures b.base.configuration.Some? && a.HashCode(h) == b.HashCode(h)
{
}
