/**
 * `SlidingIntegralController`: the settings of the sliding-window orientation estimator of stable SURF. Each setter stores its
 * value and runs `update()`, which validates the configuration built from the fields and
 * announces it to the listener.
 */
class SlidingIntegralController {
  static const DEFAULT_RADIUS: int := 8
  static const DEFAULT_SAMPLE_PERIOD: real := 0.65
  static const DEFAULT_SAMPLE_WIDTH: int := 6
  static const DEFAULT_WEIGHT_SIGMA: real := -1.0
  static const DEFAULT_WINDOW_SIZE: real := 1.0471975511965976

  /** The state inherited from `BaseController`. */
  const base: BaseController

  var radius: int
  var samplePeriod: real
  var sampleWidth: int
  var weightSigma: real
  var windowSize: real

  /** `getCurrentConfiguration()`: the configuration the fields describe. */
  function CurrentConfiguration(): Configuration
    reads this
  {
    ConfigSlidingIntegral(samplePeriod, windowSize, radius, weightSigma, sampleWidth)
  }

  /** The configuration of a freshly constructed controller. */
  static function DefaultConfiguration(): Configuration
  {
    ConfigSlidingIntegral(DEFAULT_SAMPLE_PERIOD, DEFAULT_WINDOW_SIZE, DEFAULT_RADIUS, DEFAULT_WEIGHT_SIGMA, DEFAULT_SAMPLE_WIDTH)
  }

  /** `getConfigurationType()` */
  static function Kind(): ConfigurationType
  {
    SLIDING_INTEGRAL
  }

  /** The field assignments of the constructor, which precede its call to `update()`. */
  constructor Init(listener: FeatureDetectionParams?, lib: Library)
    ensures fresh(base) && base.defaulted && base.configuration == None
    ensures base.listener == listener && base.lib == lib
    ensures CurrentConfiguration() == DefaultConfiguration()
  {
    base := new BaseController(listener, lib);
    radius := DEFAULT_RADIUS;
    samplePeriod := DEFAULT_SAMPLE_PERIOD;
    sampleWidth := DEFAULT_SAMPLE_WIDTH;
    weightSigma := DEFAULT_WEIGHT_SIGMA;
    windowSize := DEFAULT_WINDOW_SIZE;
  }

  /**
   * `new SlidingIntegralController(listener)`: installs the defaults through `update()`; a refused
   * default (or a failure further down the chain) surfaces as `IllegalStateException`.
   */
  static method Create(listener: FeatureDetectionParams?, lib: Library)
    returns (r: Result<SlidingIntegralController>, ghost notices: seq<Notice>)
    modifies if listener == null then {} else listener.Footprint()
    ensures r.Success? ==> fresh(r.value) && fresh(r.value.base)
    ensures r.Success? ==> r.value.CurrentConfiguration() == DefaultConfiguration()
    ensures r.Success? ==> r.value.base.configuration == Some(DefaultConfiguration())
    ensures r.Success? ==> r.value.base.defaulted && r.value.base.listener == listener
    ensures r.Success? ==> r.value.base.lib == lib
    ensures lib.checkValidity(DefaultConfiguration()) ==>
      Announced(notices, listener, ConfigurationChanged(None, None, Kind())) &&
      (r.Success? || r.error == IllegalStateException) && (listener == null ==> r.Success?)
    ensures !lib.checkValidity(DefaultConfiguration()) ==>
      r == Failure(IllegalStateException) && notices == []
  {
    var c := new SlidingIntegralController.Init(listener, lib);
    var o;
    o, notices := c.Update();
    r := if o.Pass? then Success(c) else Failure(IllegalStateException);
  }

  /** `update()` with this controller's current configuration and type. */
  method Update() returns (r: Outcome, ghost notices: seq<Notice>)
    modifies base, base.Downstream()
    ensures base.defaulted == old(base.defaulted)
    ensures base.Installed(CurrentConfiguration(), Kind(), r, notices)
    ensures !base.lib.checkValidity(CurrentConfiguration()) ==> unchanged(old(base.Downstream()))
  {
    r, notices := base.Update(CurrentConfiguration(), Kind());
  }

  /** `setDefaulted(d)`, inherited from `BaseController`. */
  method SetDefaulted(d: bool) returns (r: Outcome, ghost notices: seq<Notice>)
    modifies base, base.Downstream()
    ensures base.defaulted == d && base.listener == old(base.listener)
    ensures old(base.defaulted) == d ==> r == Pass && notices == [] && unchanged(base)
    ensures old(base.defaulted) == d || !base.lib.checkValidity(CurrentConfiguration()) ==>
      unchanged(old(base.Downstream()))
    ensures old(base.defaulted) != d && base.lib.checkValidity(CurrentConfiguration()) ==>
      base.Installed(CurrentConfiguration(), Kind(), r, notices)
    ensures old(base.defaulted) != d && !base.lib.checkValidity(CurrentConfiguration()) ==>
      r == Pass && notices == [] && base.configuration == old(base.configuration)
  {
    r, notices := base.SetDefaulted(d, CurrentConfiguration(), Kind());
  }

  /** `setRadius`: a no-op for the current value; otherwise stores it and runs `update()`. */
  method SetRadius(v: int) returns (r: Outcome, ghost notices: seq<Notice>)
    modifies this, base, base.Downstream()
    ensures base.defaulted == old(base.defaulted)
    ensures CurrentConfiguration() == ConfigSlidingIntegral(old(samplePeriod), old(windowSize), v, old(weightSigma), old(sampleWidth))
    ensures old(radius) == v ==>
      r == Pass && notices == [] && unchanged(base) && unchanged(old(base.Downstream()))
    ensures old(radius) != v ==> base.Installed(CurrentConfiguration(), Kind(), r, notices)
    ensures old(radius) != v && !base.lib.checkValidity(CurrentConfiguration()) ==>
      unchanged(old(base.Downstream()))
  {
    if radius == v {
      return Pass, [];
    }
    radius := v;
    r, notices := Update();
  }

  /** `setSampleWidth`: a no-op for the current value; otherwise stores it and runs `update()`. */
  method SetSampleWidth(v: int) returns (r: Outcome, ghost notices: seq<Notice>)
    modifies this, base, base.Downstream()
    ensures base.defaulted == old(base.defaulted)
    ensures CurrentConfiguration() == ConfigSlidingIntegral(old(samplePeriod), old(windowSize), old(radius), old(weightSigma), v)
    ensures old(sampleWidth) == v ==>
      r == Pass && notices == [] && unchanged(base) && unchanged(old(base.Downstream()))
    ensures old(sampleWidth) != v ==> base.Installed(CurrentConfiguration(), Kind(), r, notices)
    ensures old(sampleWidth) != v && !base.lib.checkValidity(CurrentConfiguration()) ==>
      unchanged(old(base.Downstream()))
  {
    if sampleWidth == v {
      return Pass, [];
    }
    sampleWidth := v;
    r, notices := Update();
  }

  /** `setSamplePeriod`: a no-op for the current value; otherwise stores it and runs `update()`. */
  method SetSamplePeriod(v: real) returns (r: Outcome, ghost notices: seq<Notice>)
    modifies this, base, base.Downstream()
    ensures base.defaulted == old(base.defaulted)
    ensures CurrentConfiguration() == ConfigSlidingIntegral(v, old(windowSize), old(radius), old(weightSigma), old(sampleWidth))
    ensures old(samplePeriod) == v ==>
      r == Pass && notices == [] && unchanged(base) && unchanged(old(base.Downstream()))
    ensures old(samplePeriod) != v ==> base.Installed(CurrentConfiguration(), Kind(), r, notices)
    ensures old(samplePeriod) != v && !base.lib.checkValidity(CurrentConfiguration()) ==>
      unchanged(old(base.Downstream()))
  {
    if samplePeriod == v {
      return Pass, [];
    }
    samplePeriod := v;
    r, notices := Update();
  }

  /** `setWindowSize`: a no-op for the current value; otherwise stores it and runs `update()`. */
  method SetWindowSize(v: real) returns (r: Outcome, ghost notices: seq<Notice>)
    modifies this, base, base.Downstream()
    ensures base.defaulted == old(base.defaulted)
    ensures CurrentConfiguration() == ConfigSlidingIntegral(old(samplePeriod), v, old(radius), old(weightSigma), old(sampleWidth))
    ensures old(windowSize) == v ==>
      r == Pass && notices == [] && unchanged(base) && unchanged(old(base.Downstream()))
    ensures old(windowSize) != v ==> base.Installed(CurrentConfiguration(), Kind(), r, notices)
    ensures old(windowSize) != v && !base.lib.checkValidity(CurrentConfiguration()) ==>
      unchanged(old(base.Downstream()))
  {
    if windowSize == v {
      return Pass, [];
    }
    windowSize := v;
    r, notices := Update();
  }

  /** `setWeightSigma`: a no-op for the current value; otherwise stores it and runs `update()`. */
  method SetWeightSigma(v: real) returns (r: Outcome, ghost notices: seq<Notice>)
    modifies this, base, base.Downstream()
    ensures base.defaulted == old(base.defaulted)
    ensures CurrentConfiguration() == ConfigSlidingIntegral(old(samplePeriod), old(windowSize), old(radius), v, old(sampleWidth))
    ensures old(weightSigma) == v ==>
      r == Pass && notices == [] && unchanged(base) && unchanged(old(base.Downstream()))
    ensures old(weightSigma) != v ==> base.Installed(CurrentConfiguration(), Kind(), r, notices)
    ensures old(weightSigma) != v && !base.lib.checkValidity(CurrentConfiguration()) ==>
      unchanged(old(base.Downstream()))
  {
    if weightSigma == v {
      return Pass, [];
    }
    weightSigma := v;
    r, notices := Update();
  }

  /**
   * `equals`: the inherited state and every field. Because the fields determine the
   * configuration they describe, that is the same as equal inherited state and equal
   * current configurations.
   */
  predicate Equals(that: SlidingIntegralController)
    reads this, base, that, that.base
    ensures Equals(that) <==>
      base.Equals(that.base) && CurrentConfiguration() == that.CurrentConfiguration()
  {
    base.Equals(that.base) && radius == that.radius && samplePeriod == that.samplePeriod && sampleWidth == that.sampleWidth && weightSigma == that.weightSigma && windowSize == that.windowSize
  }

  /** `hashCode`: the inherited hash extended with every field. */
  function HashCode(h: Hashes): (r: int)
    requires base.configuration.Some?
    ensures IsInt32(r)
    reads this, base
  {
    Hash31(Hash31(Hash31(Hash31(Hash31(base.HashCode(h), radius), sampleWidth), h.ofDouble(samplePeriod)), h.ofDouble(windowSize)), h.ofDouble(weightSigma))
  }
}

/** `equals` and `hashCode` agree: equal controllers hash equally. */
lemma EqualSlidingIntegralControllersHashEqually(a: SlidingIntegralController, b: SlidingIntegralController, h: Hashes)
  requires a.base.configuration.Some? && a.Equals(b)
  ensures b.base.configuration.Some? && a.HashCode(h) == b.HashCode(h)
{
}
