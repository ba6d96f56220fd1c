/**
 * `ScaleSpaceController`: the settings of the SIFT scale space. Each setter stores its
 * value and runs `update()`, which validates the configuration built from the fields and
 * announces it to the listener.
 */
class ScaleSpaceController {
  static const DEFAULT_BLURSIGMA: real := 1.6
  static const DEFAULT_NUMSCALES: int := 5
  static const DEFAULT_NUMOCTAVES: int := 4
  static const DEFAULT_DOUBLE_INPUT_IMAGE: bool := false

  /** The state inherited from `BaseController`. */
  const base: BaseController

  var blurSigma: real
  var numScales: int
  var numOctaves: int
  var doubleInputImage: bool

  /** `getCurrentConfiguration()`: the configuration the fields describe. */
  function CurrentConfiguration(): Configuration
    reads this
  {
    ConfigSiftScaleSpace(blurSigma, numScales, numOctaves, doubleInputImage)
  }

  /** The configuration of a freshly constructed controller. */
  static function DefaultConfiguration(): Configuration
  {
    ConfigSiftScaleSpace(DEFAULT_BLURSIGMA, DEFAULT_NUMSCALES, DEFAULT_NUMOCTAVES, DEFAULT_DOUBLE_INPUT_IMAGE)
  }

  /** `getConfigurationType()` */
  static function Kind(): ConfigurationType
  {
    SIFT_SCALE_SPACE
  }

  /** The field assignments of the constructor, which precede its call to `update()`. */
  constructor Init(listener: FeatureDetectionParams?, lib: Library)
    ensures fresh(base) && base.defaulted && base.configuration == None
    ensures base.listener == listener && base.lib == lib
    ensures CurrentConfiguration() == DefaultConfiguration()
  {
    base := new BaseController(listener, lib);
    blurSigma := DEFAULT_BLURSIGMA;
    numScales := DEFAULT_NUMSCALES;
    numOctaves := DEFAULT_NUMOCTAVES;
    doubleInputImage := DEFAULT_DOUBLE_INPUT_IMAGE;
  }

  /**
   * `new ScaleSpaceController(listener)`: installs the defaults through `update()`; a refused
   * default (or a failure further down the chain) surfaces as `IllegalStateException`.
   */
  static method Create(listener: FeatureDetectionParams?, lib: Library)
    returns (r: Result<ScaleSpaceController>, ghost notices: seq<Notice>)
    modifies if listener == null then {} else listener.Footprint()
    ensures r.Success? ==> fresh(r.value) && fresh(r.value.base)
    ensures r.Success? ==> r.value.CurrentConfiguration() == DefaultConfiguration()
    ensures r.Success? ==> r.value.base.configuration == Some(DefaultConfiguration())
    ensures r.Success? ==> r.value.base.defaulted && r.value.base.listener == listener
    ensures r.Success? ==> r.value.base.lib == lib
    ensures lib.checkValidity(DefaultConfiguration()) ==>
      Announced(notices, listener, ConfigurationChanged(None, None, Kind())) &&
      (r.Success? || r.error == IllegalStateException) && (listener == null ==> r.Success?)
    ensures !lib.checkValidity(DefaultConfiguration()) ==>
      r == Failure(IllegalStateException) && notices == []
  {
    var c := new ScaleSpaceController.Init(listener, lib);
    var o;
    o, notices := c.Update();
    r := if o.Pass? then Success(c) else Failure(IllegalStateException);
  }

  /** `update()` with this controller's current configuration and type. */
  method Update() returns (r: Outcome, ghost notices: seq<Notice>)
    modifies base, base.Downstream()
    ensures base.defaulted == old(base.defaulted)
    ensures base.Installed(CurrentConfiguration(), Kind(), r, notices)
    ensures !base.lib.checkValidity(CurrentConfiguration()) ==> unchanged(old(base.Downstream()))
  {
    r, notices := base.Update(CurrentConfiguration(), Kind());
  }

  /** `setDefaulted(d)`, inherited from `BaseController`. */
  method SetDefaulted(d: bool) returns (r: Outcome, ghost notices: seq<Notice>)
    modifies base, base.Downstream()
    ensures base.defaulted == d && base.listener == old(base.listener)
    ensures old(base.defaulted) == d ==> r == Pass && notices == [] && unchanged(base)
    ensures old(base.defaulted) == d || !base.lib.checkValidity(CurrentConfiguration()) ==>
      unchanged(old(base.Downstream()))
    ensures old(base.defaulted) != d && base.lib.checkValidity(CurrentConfiguration()) ==>
      base.Installed(CurrentConfiguration(), Kind(), r, notices)
    ensures old(base.defaulted) != d && !base.lib.checkValidity(CurrentConfiguration()) ==>
      r == Pass && notices == [] && base.configuration == old(base.configuration)
  {
    r, notices := base.SetDefaulted(d, CurrentConfiguration(), Kind());
  }

  /** `setBlurSigma`: a no-op for the current value; otherwise stores it and runs `update()`. */
  method SetBlurSigma(v: real) returns (r: Outcome, ghost notices: seq<Notice>)
    modifies this, base, base.Downstream()
    ensures base.defaulted == old(base.defaulted)
    ensures CurrentConfiguration() == ConfigSiftScaleSpace(v, old(numScales), old(numOctaves), old(doubleInputImage))
    ensures old(blurSigma) == v ==>
      r == Pass && notices == [] && unchanged(base) && unchanged(old(base.Downstream()))
    ensures old(blurSigma) != v ==> base.Installed(CurrentConfiguration(), Kind(), r, notices)
    ensures old(blurSigma) != v && !base.lib.checkValidity(CurrentConfiguration()) ==>
      unchanged(old(base.Downstream()))
  {
    if blurSigma == v {
      return Pass, [];
    }
    blurSigma := v;
    r, notices := Update();
  }

  /** `setDoubleInputImage`: a no-op for the current value; otherwise stores it and runs `update()`. */
  method SetDoubleInputImage(v: bool) returns (r: Outcome, ghost notices: seq<Notice>)
    modifies this, base, base.Downstream()
    ensures base.defaulted == old(base.defaulted)
    ensures CurrentConfiguration() == ConfigSiftScaleSpace(old(blurSigma), old(numScales), old(numOctaves), v)
    ensures old(doubleInputImage) == v ==>
      r == Pass && notices == [] && unchanged(base) && unchanged(old(base.Downstream()))
    ensures old(doubleInputImage) != v ==> base.Installed(CurrentConfiguration(), Kind(), r, notices)
    ensures old(doubleInputImage) != v && !base.lib.checkValidity(CurrentConfiguration()) ==>
      unchanged(old(base.Downstream()))
  {
    if doubleInputImage == v {
      return Pass, [];
    }
    doubleInputImage := v;
    r, notices := Update();
  }

  /** `setNumOctaves`: a no-op for the current value; otherwise stores it and runs `update()`. */
  method SetNumOctaves(v: int) returns (r: Outcome, ghost notices: seq<Notice>)
    modifies this, base, base.Downstream()
    ensures base.defaulted == old(base.defaulted)
    ensures CurrentConfiguration() == ConfigSiftScaleSpace(old(blurSigma), old(numScales), v, old(doubleInputImage))
    ensures old(numOctaves) == v ==>
      r == Pass && notices == [] && unchanged(base) && unchanged(old(base.Downstream()))
    ensures old(numOctaves) != v ==> base.Installed(CurrentConfiguration(), Kind(), r, notices)
    ensures old(numOctaves) != v && !base.lib.checkValidity(CurrentConfiguration()) ==>
      unchanged(old(base.Downstream()))
  {
    if numOctaves == v {
      return Pass, [];
    }
    numOctaves := v;
    r, notices := Update();
  }

  /** `setNumScales`: a no-op for the current value; otherwise stores it and runs `update()`. */
  method SetNumScales(v: int) returns (r: Outcome, ghost notices: seq<Notice>)
    modifies this, base, base.Downstream()
    ensures base.defaulted == old(base.defaulted)
    ensures CurrentConfiguration() == ConfigSiftScaleSpace(old(blurSigma), v, old(numOctaves), old(doubleInputImage))
    ensures old(numScales) == v ==>
      r == Pass && notices == [] && unchanged(base) && unchanged(old(base.Downstream()))
    ensures old(numScales) != v ==> base.Installed(CurrentConfiguration(), Kind(), r, notices)
    ensures old(numScales) != v && !base.lib.checkValidity(CurrentConfiguration()) ==>
      unchanged(old(base.Downstream()))
  {
    if numScales == v {
      return Pass, [];
    }
    numScales := v;
    r, notices := Update();
  }

  /** `equals`, inherited from `BaseController`: the fields are not compared. */
  predicate Equals(that: ScaleSpaceController)
    reads base, that.base
    ensures this == that ==> Equals(that)
    ensures Equals(that) <==>
      base.defaulted == that.base.defaulted && base.configuration == that.base.configuration
  {
    base.Equals(that.base)
  }

  /** `hashCode`, inherited from `BaseController`. */
  function HashCode(h: Hashes): (r: int)
    requires base.configuration.Some?
    ensures IsInt32(r)
    reads base
  {
    base.HashCode(h)
  }
}

/** `equals` and `hashCode` agree: equal controllers hash equally. */
lemma EqualScaleSpaceControllersHashEqually(a: ScaleSpaceController, b: ScaleSpaceController, h: Hashes)
  requires a.base.configuration.Some? && a.Equals(b)
  ensures b.base.configuration.Some? && a.HashCode(h) == b.HashCode(h)
{
}
