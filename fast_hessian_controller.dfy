/**
 * `FastHessianController`: the settings of the Fast-Hessian SURF feature detector. Each setter stores its
 * value and runs `update()`, which validates the configuration built from the fields and
 * announces it to the listener.
 */
class FastHessianController {
  static const DEFAULT_DETECT_THRESHOLD: real := 1.0
  static const DEFAULT_EXTRACT_RADIUS: int := 1
  static const DEFAULT_INITIAL_SAMPLE_SIZE: int := 1
  static const DEFAULT_INITIAL_SIZE: int := 9
  static const DEFAULT_MAX_FEATURE_PER_SCALE: int := 0
  static const DEFAULT_NUM_OCTAVES: int := 4
  static const DEFAULT_NUM_SCALES_PER_OCTAVE: int := 4

  /** The state inherited from `BaseController`. */
  const base: BaseController

  var detectThreshold: real
  var extractRadius: int
  var initialSampleSize: int
  var initialSize: int
  var maxFeaturePerScale: int
  var numberOfOctaves: int
  var numberScalesPerOctave: int

  /** `getCurrentConfiguration()`: the configuration the fields describe. */
  function CurrentConfiguration(): Configuration
    reads this
  {
    ConfigFastHessian(detectThreshold, extractRadius, maxFeaturePerScale, initialSampleSize, initialSize, numberScalesPerOctave, numberOfOctaves)
  }

  /** The configuration of a freshly constructed controller. */
  static function DefaultConfiguration(): Configuration
  {
    ConfigFastHessian(DEFAULT_DETECT_THRESHOLD, DEFAULT_EXTRACT_RADIUS, DEFAULT_MAX_FEATURE_PER_SCALE, DEFAULT_INITIAL_SAMPLE_SIZE, DEFAULT_INITIAL_SIZE, DEFAULT_NUM_SCALES_PER_OCTAVE, DEFAULT_NUM_OCTAVES)
  }

  /** `getConfigurationType()` */
  static function Kind(): ConfigurationType
  {
    FAST_HESSIAN
  }

  /** The field assignments of the constructor, which precede its call to `update()`. */
  constructor Init(listener: FeatureDetectionParams?, lib: Library)
    ensures fresh(base) && base.defaulted && base.configuration == None
    ensures base.listener == listener && base.lib == lib
    ensures CurrentConfiguration() == DefaultConfiguration()
  {
    base := new BaseController(listener, lib);
    detectThreshold := DEFAULT_DETECT_THRESHOLD;
    extractRadius := DEFAULT_EXTRACT_RADIUS;
    initialSampleSize := DEFAULT_INITIAL_SAMPLE_SIZE;
    initialSize := DEFAULT_INITIAL_SIZE;
    maxFeaturePerScale := DEFAULT_MAX_FEATURE_PER_SCALE;
    numberOfOctaves := DEFAULT_NUM_OCTAVES;
    numberScalesPerOctave := DEFAULT_NUM_SCALES_PER_OCTAVE;
  }

  /**
   * `new FastHessianController(listener)`: installs the defaults through `update()`; a refused
   * default (or a failure further down the chain) surfaces as `IllegalStateException`.
   */
  static method Create(listener: FeatureDetectionParams?, lib: Library)
    returns (r: Result<FastHessianController>, ghost notices: seq<Notice>)
    modifies if listener == null then {} else listener.Footprint()
    ensures r.Success? ==> fresh(r.value) && fresh(r.value.base)
    ensures r.Success? ==> r.value.CurrentConfiguration() == DefaultConfiguration()
    ensures r.Success? ==> r.value.base.configuration == Some(DefaultConfiguration())
    ensures r.Success? ==> r.value.base.defaulted && r.value.base.listener == listener
    ensures r.Success? ==> r.value.base.lib == lib
    ensures lib.checkValidity(DefaultConfiguration()) ==>
      Announced(notices, listener, ConfigurationChanged(None, None, Kind())) &&
      (r.Success? || r.error == IllegalStateException) && (listener == null ==> r.Success?)
    ensures !lib.checkValidity(DefaultConfiguration()) ==>
      r == Failure(IllegalStateException) && notices == []
  {
    var c := new FastHessianController.Init(listener, lib);
    var o;
    o, notices := c.Update();
    r := if o.Pass? then Success(c) else Failure(IllegalStateException);
  }

  /** `update()` with this controller's current configuration and type. */
  method Update() returns (r: Outcome, ghost notices: seq<Notice>)
    modifies base, base.Downstream()
    ensures base.defaulted == old(base.defaulted)
    ensures base.Installed(CurrentConfiguration(), Kind(), r, notices)
    ensures !base.lib.checkValidity(CurrentConfiguration()) ==> unchanged(old(base.Downstream()))
  {
    r, notices := base.Update(CurrentConfiguration(), Kind());
  }

  /** `setDefaulted(d)`, inherited from `BaseController`. */
  method SetDefaulted(d: bool) returns (r: Outcome, ghost notices: seq<Notice>)
    modifies base, base.Downstream()
    ensures base.defaulted == d && base.listener == old(base.listener)
    ensures old(base.defaulted) == d ==> r == Pass && notices == [] && unchanged(base)
    ensures old(base.defaulted) == d || !base.lib.checkValidity(CurrentConfiguration()) ==>
      unchanged(old(base.Downstream()))
    ensures old(base.defaulted) != d && base.lib.checkValidity(CurrentConfiguration()) ==>
      base.Installed(CurrentConfiguration(), Kind(), r, notices)
    ensures old(base.defaulted) != d && !base.lib.checkValidity(CurrentConfiguration()) ==>
      r == Pass && notices == [] && base.configuration == old(base.configuration)
  {
    r, notices := base.SetDefaulted(d, CurrentConfiguration(), Kind());
  }

  /** `setDetectThreshold`: a no-op for the current value; otherwise stores it and runs `update()`. */
  method SetDetectThreshold(v: real) returns (r: Outcome, ghost notices: seq<Notice>)
    modifies this, base, base.Downstream()
    ensures base.defaulted == old(base.defaulted)
    ensures CurrentConfiguration() == ConfigFastHessian(v, old(extractRadius), old(maxFeaturePerScale), old(initialSampleSize), old(initialSize), old(numberScalesPerOctave), old(numberOfOctaves))
    ensures old(detectThreshold) == v ==>
      r == Pass && notices == [] && unchanged(base) && unchanged(old(base.Downstream()))
    ensures old(detectThreshold) != v ==> base.Installed(CurrentConfiguration(), Kind(), r, notices)
    ensures old(detectThreshold) != v && !base.lib.checkValidity(CurrentConfiguration()) ==>
      unchanged(old(base.Downstream()))
  {
    if detectThreshold == v {
      return Pass, [];
    }
    detectThreshold := v;
    r, notices := Update();
  }

  /** `setExtractRadius`: a no-op for the current value; otherwise stores it and runs `update()`. */
  method SetExtractRadius(v: int) returns (r: Outcome, ghost notices: seq<Notice>)
    modifies this, base, base.Downstream()
    ensures base.defaulted == old(base.defaulted)
    ensures CurrentConfiguration() == ConfigFastHessian(old(detectThreshold), v, old(maxFeaturePerScale), old(initialSampleSize), old(initialSize), old(numberScalesPerOctave), old(numberOfOctaves))
    ensures old(extractRadius) == v ==>
      r == Pass && notices == [] && unchanged(base) && unchanged(old(base.Downstream()))
    ensures old(extractRadius) != v ==> base.Installed(CurrentConfiguration(), Kind(), r, notices)
    ensures old(extractRadius) != v && !base.lib.checkValidity(CurrentConfiguration()) ==>
      unchanged(old(base.Downstream()))
  {
    if extractRadius == v {
      return Pass, [];
    }
    extractRadius := v;
    r, notices := Update();
  }

  /**
   * `setInitialSampleSize`: a no-op when the value equals `initialSize` (the field the source's
   * guard reads); otherwise stores it in `initialSampleSize` and runs `update()`.
   */
  method SetInitialSampleSize(v: int) returns (r: Outcome, ghost notices: seq<Notice>)
    modifies this, base, base.Downstream()
    ensures base.defaulted == old(base.defaulted)
    ensures old(initialSize) == v ==> CurrentConfiguration() == old(CurrentConfiguration())
    ensures old(initialSize) != v ==> CurrentConfiguration() == ConfigFastHessian(old(detectThreshold), old(extractRadius), old(maxFeaturePerScale), v, old(initialSize), old(numberScalesPerOctave), old(numberOfOctaves))
    ensures old(initialSize) == v ==>
      r == Pass && notices == [] && unchanged(base) && unchanged(old(base.Downstream()))
    ensures old(initialSize) != v ==> base.Installed(CurrentConfiguration(), Kind(), r, notices)
    ensures old(initialSize) != v && !base.lib.checkValidity(CurrentConfiguration()) ==>
      unchanged(old(base.Downstream()))
  {
    if initialSize == v {
      return Pass, [];
    }
    initialSampleSize := v;
    r, notices := Update();
  }

  /** `setInitialSize`: a no-op for the current value; otherwise stores it and runs `update()`. */
  method SetInitialSize(v: int) returns (r: Outcome, ghost notices: seq<Notice>)
    modifies this, base, base.Downstream()
    ensures base.defaulted == old(base.defaulted)
    ensures CurrentConfiguration() == ConfigFastHessian(old(detectThreshold), old(extractRadius), old(maxFeaturePerScale), old(initialSampleSize), v, old(numberScalesPerOctave), old(numberOfOctaves))
    ensures old(initialSize) == v ==>
      r == Pass && notices == [] && unchanged(base) && unchanged(old(base.Downstream()))
    ensures old(initialSize) != v ==> base.Installed(CurrentConfiguration(), Kind(), r, notices)
    ensures old(initialSize) != v && !base.lib.checkValidity(CurrentConfiguration()) ==>
      unchanged(old(base.Downstream()))
  {
    if initialSize == v {
      return Pass, [];
    }
    initialSize := v;
    r, notices := Update();
  }

  /** `setMaxFeaturePerScale`: a no-op for the current value; otherwise stores it and runs `update()`. */
  method SetMaxFeaturePerScale(v: int) returns (r: Outcome, ghost notices: seq<Notice>)
    modifies this, base, base.Downstream()
    ensures base.defaulted == old(base.defaulted)
    ensures CurrentConfiguration() == ConfigFastHessian(old(detectThreshold), old(extractRadius), v, old(initialSampleSize), old(initialSize), old(numberScalesPerOctave), old(numberOfOctaves))
    ensures old(maxFeaturePerScale) == v ==>
      r == Pass && notices == [] && unchanged(base) && unchanged(old(base.Downstream()))
    ensures old(maxFeaturePerScale) != v ==> base.Installed(CurrentConfiguration(), Kind(), r, notices)
    ensures old(maxFeaturePerScale) != v && !base.lib.checkValidity(CurrentConfiguration()) ==>
      unchanged(old(base.Downstream()))
  {
    if maxFeaturePerScale == v {
      return Pass, [];
    }
    maxFeaturePerScale := v;
    r, notices := Update();
  }

  /** `setNumberOfOctaves`: a no-op for the current value; otherwise stores it and runs `update()`. */
  method SetNumberOfOctaves(v: int) returns (r: Outcome, ghost notices: seq<Notice>)
    modifies this, base, base.Downstream()
    ensures base.defaulted == old(base.defaulted)
    ensures CurrentConfiguration() == ConfigFastHessian(old(detectThreshold), old(extractRadius), old(maxFeaturePerScale), old(initialSampleSize), old(initialSize), old(numberScalesPerOctave), v)
    ensures old(numberOfOctaves) == v ==>
      r == Pass && notices == [] && unchanged(base) && unchanged(old(base.Downstream()))
    ensures old(numberOfOctaves) != v ==> base.Installed(CurrentConfiguration(), Kind(), r, notices)
    ensures old(numberOfOctaves) != v && !base.lib.checkValidity(CurrentConfiguration()) ==>
      unchanged(old(base.Downstream()))
  {
    if numberOfOctaves == v {
      return Pass, [];
    }
    numberOfOctaves := v;
    r, notices := Update();
  }

  /** `setNumberScalesPerOctave`: a no-op for the current value; otherwise stores it and runs `update()`. */
  method SetNumberScalesPerOctave(v: int) returns (r: Outcome, ghost notices: seq<Notice>)
    modifies this, base, base.Downstream()
    ensures base.defaulted == old(base.defaulted)
    ensures CurrentConfiguration() == ConfigFastHessian(old(detectThreshold), old(extractRadius), old(maxFeaturePerScale), old(initialSampleSize), old(initialSize), v, old(numberOfOctaves))
    ensures old(numberScalesPerOctave) == v ==>
      r == Pass && notices == [] && unchanged(base) && unchanged(old(base.Downstream()))
    ensures old(numberScalesPerOctave) != v ==> base.Installed(CurrentConfiguration(), Kind(), r, notices)
    ensures old(numberScalesPerOctave) != v && !base.lib.checkValidity(CurrentConfiguration()) ==>
      unchanged(old(base.Downstream()))
  {
    if numberScalesPerOctave == v {
      return Pass, [];
    }
    numberScalesPerOctave := v;
    r, notices := Update();
  }

  /**
   * `equals`: the inherited state and every field. Because the fields determine the
   * configuration they describe, that is the same as equal inherited state and equal
   * current configurations.
   */
  predicate Equals(that: FastHessianController)
    reads this, base, that, that.base
    ensures Equals(that) <==>
      base.Equals(that.base) && CurrentConfiguration() == that.CurrentConfiguration()
  {
    base.Equals(that.base) && detectThreshold == that.detectThreshold && extractRadius == that.extractRadius && initialSampleSize == that.initialSampleSize && initialSize == that.initialSize && maxFeaturePerScale == that.maxFeaturePerScale && numberOfOctaves == that.numberOfOctaves && numberScalesPerOctave == that.numberScalesPerOctave
  }

  /** `hashCode`: the inherited hash extended with every field. */
  function HashCode(h: Hashes): (r: int)
    requires base.configuration.Some?
    ensures IsInt32(r)
    reads this, base
  {
    Hash31(Hash31(Hash31(Hash31(Hash31(Hash31(Hash31(base.HashCode(h), h.ofFloat(detectThreshold)), extractRadius), initialSampleSize), initialSize), maxFeaturePerScale), numberOfOctaves), numberScalesPerOctave)
  }
}

/** `equals` and `hashCode` agree: equal controllers hash equally. */
lemma EqualFastHessianControllersHashEqually(a: FastHessianController, b: FastHessianController, h: Hashes)
  requires a.base.configuration.Some? && a.Equals(b)
  ensures b.base.configuration.Some? && a.HashCode(h) == b.HashCode(h)
{
}
