/**
 * `DescribeController`: the settings of the SIFT describer. Each setter stores its
 * value and runs `update()`, which validates the configuration built from the fields and
 * announces it to the listener.
 */
class DescribeController {
  static const DEFAULT_GRID_WIDTH: int := 4
  static const DEFAULT_NUM_SAMPLES: int := 8
  static const DEFAULT_NUM_HIST_BINS: int := 8
  static const DEFAULT_WEIGHT_SIGMA: real := 0.5
  static const DEFAULT_SIGMA_TO_RADIUS: real := 3.0

  /** The state inherited from `BaseController`. */
  const base: BaseController

  var gridWidth: int
  var numSamples: int
  var histBins: int
  var weightSigma: real
  var sigmaToRadius: real

  /** `getCurrentConfiguration()`: the configuration the fields describe. */
  function CurrentConfiguration(): Configuration
    reads this
  {
    ConfigSiftDescribe(gridWidth, numSamples, histBins, weightSigma, sigmaToRadius)
  }

  /** The configuration of a freshly constructed controller. */
  static function DefaultConfiguration(): Configuration
  {
    ConfigSiftDescribe(DEFAULT_GRID_WIDTH, DEFAULT_NUM_SAMPLES, DEFAULT_NUM_HIST_BINS, DEFAULT_WEIGHT_SIGMA, DEFAULT_SIGMA_TO_RADIUS)
  }

  /** `getConfigurationType()` */
  static function Kind(): ConfigurationType
  {
    SIFT_DESCRIBE
  }

  /** The field assignments of the constructor, which precede its call to `update()`. */
  constructor Init(listener: FeatureDetectionParams?, lib: Library)
    ensures fresh(base) && base.defaulted && base.configuration == None
    ensures base.listener == listener && base.lib == lib
    ensures CurrentConfiguration() == DefaultConfiguration()
  {
    base := new BaseController(listener, lib);
    gridWidth := DEFAULT_GRID_WIDTH;
    numSamples := DEFAULT_NUM_SAMPLES;
    histBins := DEFAULT_NUM_HIST_BINS;
    weightSigma := DEFAULT_WEIGHT_SIGMA;
    sigmaToRadius := DEFAULT_SIGMA_TO_RADIUS;
  }

  /**
   * `new DescribeController(listener)`: installs the defaults through `update()`; a refused
   * default (or a failure further down the chain) surfaces as `IllegalStateException`.
   */
  static method Create(listener: FeatureDetectionParams?, lib: Library)
    returns (r: Result<DescribeController>, ghost notices: seq<Notice>)
    modifies if listener == null then {} else listener.Footprint()
    ensures r.Success? ==> fresh(r.value) && fresh(r.value.base)
    ensures r.Success? ==> r.value.CurrentConfiguration() == DefaultConfiguration()
    ensures r.Success? ==> r.value.base.configuration == Some(DefaultConfiguration())
    ensures r.Success? ==> r.value.base.defaulted && r.value.base.listener == listener
    ensures r.Success? ==> r.value.base.lib == lib
    ensures lib.checkValidity(DefaultConfiguration()) ==>
      Announced(notices, listener, ConfigurationChanged(None, None, Kind())) &&
      (r.Success? || r.error == IllegalStateException) && (listener == null ==> r.Success?)
    ensures !lib.checkValidity(DefaultConfiguration()) ==>
      r == Failure(IllegalStateException) && notices == []
  {
    var c := new DescribeController.Init(listener, lib);
    var o;
    o, notices := c.Update();
    r := if o.Pass? then Success(c) else Failure(IllegalStateException);
  }

  /** `update()` with this controller's current configuration and type. */
  method Update() returns (r: Outcome, ghost notices: seq<Notice>)
    modifies base, base.Downstream()
    ensures base.defaulted == old(base.defaulted)
    ensures base.Installed(CurrentConfiguration(), Kind(), r, notices)
    ensures !base.lib.checkValidity(CurrentConfiguration()) ==> unchanged(old(base.Downstream()))
  {
    r, notices := base.Update(CurrentConfiguration(), Kind());
  }

  /** `setDefaulted(d)`, inherited from `BaseController`. */
  method SetDefaulted(d: bool) returns (r: Outcome, ghost notices: seq<Notice>)
    modifies base, base.Downstream()
    ensures base.defaulted == d && base.listener == old(base.listener)
    ensures old(base.defaulted) == d ==> r == Pass && notices == [] && unchanged(base)
    ensures old(base.defaulted) == d || !base.lib.checkValidity(CurrentConfiguration()) ==>
      unchanged(old(base.Downstream()))
    ensures old(base.defaulted) != d && base.lib.checkValidity(CurrentConfiguration()) ==>
      base.Installed(CurrentConfiguration(), Kind(), r, notices)
    ensures old(base.defaulted) != d && !base.lib.checkValidity(CurrentConfiguration()) ==>
      r == Pass && notices == [] && base.configuration == old(base.configuration)
  {
    r, notices := base.SetDefaulted(d, CurrentConfiguration(), Kind());
  }

  /** `setGridWidth`: a no-op for the current value; otherwise stores it and runs `update()`. */
  method SetGridWidth(v: int) returns (r: Outcome, ghost notices: seq<Notice>)
    modifies this, base, base.Downstream()
    ensures base.defaulted == old(base.defaulted)
    ensures CurrentConfiguration() == ConfigSiftDescribe(v, old(numSamples), old(histBins), old(weightSigma), old(sigmaToRadius))
    ensures old(gridWidth) == v ==>
      r == Pass && notices == [] && unchanged(base) && unchanged(old(base.Downstream()))
    ensures old(gridWidth) != v ==> base.Installed(CurrentConfiguration(), Kind(), r, notices)
    ensures old(gridWidth) != v && !base.lib.checkValidity(CurrentConfiguration()) ==>
      unchanged(old(base.Downstream()))
  {
    if gridWidth == v {
      return Pass, [];
    }
    gridWidth := v;
    r, notices := Update();
  }

  /** `setNumSamples`: a no-op for the current value; otherwise stores it and runs `update()`. */
  method SetNumSamples(v: int) returns (r: Outcome, ghost notices: seq<Notice>)
    modifies this, base, base.Downstream()
    ensures base.defaulted == old(base.defaulted)
    ensures CurrentConfiguration() == ConfigSiftDescribe(old(gridWidth), v, old(histBins), old(weightSigma), old(sigmaToRadius))
    ensures old(numSamples) == v ==>
      r == Pass && notices == [] && unchanged(base) && unchanged(old(base.Downstream()))
    ensures old(numSamples) != v ==> base.Installed(CurrentConfiguration(), Kind(), r, notices)
    ensures old(numSamples) != v && !base.lib.checkValidity(CurrentConfiguration()) ==>
      unchanged(old(base.Downstream()))
  {
    if numSamples == v {
      return Pass, [];
    }
    numSamples := v;
    r, notices := Update();
  }

  /** `setNumHistBins`: a no-op for the current value; otherwise stores it and runs `update()`. */
  method SetNumHistBins(v: int) returns (r: Outcome, ghost notices: seq<Notice>)
    modifies this, base, base.Downstream()
    ensures base.defaulted == old(base.defaulted)
    ensures CurrentConfiguration() == ConfigSiftDescribe(old(gridWidth), old(numSamples), v, old(weightSigma), old(sigmaToRadius))
    ensures old(histBins) == v ==>
      r == Pass && notices == [] && unchanged(base) && unchanged(old(base.Downstream()))
    ensures old(histBins) != v ==> base.Installed(CurrentConfiguration(), Kind(), r, notices)
    ensures old(histBins) != v && !base.lib.checkValidity(CurrentConfiguration()) ==>
      unchanged(old(base.Downstream()))
  {
    if histBins == v {
      return Pass, [];
    }
    histBins := v;
    r, notices := Update();
  }

  /** `setWeightSigma`: a no-op for the current value; otherwise stores it and runs `update()`. */
  method SetWeightSigma(v: real) returns (r: Outcome, ghost notices: seq<Notice>)
    modifies this, base, base.Downstream()
    ensures base.defaulted == old(base.defaulted)
    ensures CurrentConfiguration() == ConfigSiftDescribe(old(gridWidth), old(numSamples), old(histBins), v, old(sigmaToRadius))
    ensures old(weightSigma) == v ==>
      r == Pass && notices == [] && unchanged(base) && unchanged(old(base.Downstream()))
    ensures old(weightSigma) != v ==> base.Installed(CurrentConfiguration(), Kind(), r, notices)
    ensures old(weightSigma) != v && !base.lib.checkValidity(CurrentConfiguration()) ==>
      unchanged(old(base.Downstream()))
  {
    if weightSigma == v {
      return Pass, [];
    }
    weightSigma := v;
    r, notices := Update();
  }

  /** `setSigmaToRadius`: a no-op for the current value; otherwise stores it and runs `update()`. */
  method SetSigmaToRadius(v: real) returns (r: Outcome, ghost notices: seq<Notice>)
    modifies this, base, base.Downstream()
    ensures base.defaulted == old(base.defaulted)
    ensures CurrentConfiguration() == ConfigSiftDescribe(old(gridWidth), old(numSamples), old(histBins), old(weightSigma), v)
    ensures old(sigmaToRadius) == v ==>
      r == Pass && notices == [] && unchanged(base) && unchanged(old(base.Downstream()))
    ensures old(sigmaToRadius) != v ==> base.Installed(CurrentConfiguration(), Kind(), r, notices)
    ensures old(sigmaToRadius) != v && !base.lib.checkValidity(CurrentConfiguration()) ==>
      unchanged(old(base.Downstream()))
  {
    if sigmaToRadius == v {
      return Pass, [];
    }
    sigmaToRadius := v;
    r, notices := Update();
  }

  /** `equals`, inherited from `BaseController`: the fields are not compared. */
  predicate Equals(that: DescribeController)
    reads base, that.base
    ensures this == that ==> Equals(that)
    ensures Equals(that) <==>
      base.defaulted == that.base.defaulted && base.configuration == that.base.configuration
  {
    base.Equals(that.base)
  }

  /** `hashCode`, inherited from `BaseController`. */
  function HashCode(h: Hashes): (r: int)
    requires base.configuration.Some?
    ensures IsInt32(r)
    reads base
  {
    base.HashCode(h)
  }
}

/** `equals` and `hashCode` agree: equal controllers hash equally. */
lemma EqualDescribeControllersHashEqually(a: DescribeController, b: DescribeController, h: Hashes)
  requires a.base.configuration.Some? && a.Equals(b)
  ensures b.base.configuration.Some? && a.HashCode(h) == b.HashCode(h)
{
}
