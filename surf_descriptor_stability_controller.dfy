/**
 * `SurfDescriptorStabilityController`: the settings of the stability-oriented SURF describer. Each setter stores its
 * value and runs `update()`, which validates the configuration built from the fields and
 * announces it to the listener.
 */
class SurfDescriptorStabilityController {
  static const DEFAULT_OVERLAP: int := 2
  static const DEFAULT_SIGMA_LARGE_GRID: real := 2.5
  static const DEFAULT_SIGMA_SUBREGION: real := 2.6

  /** The state inherited from `BaseController`. */
  const base: BaseController

  var overLap: int
  var sigmaLargeGrid: real
  var sigmaSubRegion: real

  /** `getCurrentConfiguration()`: the configuration the fields describe. */
  function CurrentConfiguration(): Configuration
    reads this
  {
    ConfigSurfStability(overLap, sigmaLargeGrid, sigmaSubRegion)
  }

  /** The configuration of a freshly constructed controller. */
  static function DefaultConfiguration(): Configuration
  {
    ConfigSurfStability(DEFAULT_OVERLAP, DEFAULT_SIGMA_LARGE_GRID, DEFAULT_SIGMA_SUBREGION)
  }

  /** `getConfigurationType()` */
  static function Kind(): ConfigurationType
  {
    SURF_DESCRIBE_STABILITY
  }

  /** The field assignments of the constructor, which precede its call to `update()`. */
  constructor Init(listener: FeatureDetectionParams?, lib: Library)
    ensures fresh(base) && base.defaulted && base.configuration == None
    ensures base.listener == listener && base.lib == lib
    ensures CurrentConfiguration() == DefaultConfiguration()
  {
    base := new BaseController(listener, lib);
    overLap := DEFAULT_OVERLAP;
    sigmaLargeGrid := DEFAULT_SIGMA_LARGE_GRID;
    sigmaSubRegion := DEFAULT_SIGMA_SUBREGION;
  }

  /**
   * `new SurfDescriptorStabilityController(listener)`: installs the defaults through `update()`; a refused
   * default (or a failure further down the chain) surfaces as `IllegalStateException`.
   */
  static method Create(listener: FeatureDetectionParams?, lib: Library)
    returns (r: Result<SurfDescriptorStabilityController>, ghost notices: seq<Notice>)
    modifies if listener == null then {} else listener.Footprint()
    ensures r.Success? ==> fresh(r.value) && fresh(r.value.base)
    ensures r.Success? ==> r.value.CurrentConfiguration() == DefaultConfiguration()
    ensures r.Success? ==> r.value.base.configuration == Some(DefaultConfiguration())
    ensures r.Success? ==> r.value.base.defaulted && r.value.base.listener == listener
    ensures r.Success? ==> r.value.base.lib == lib
    ensures lib.checkValidity(DefaultConfiguration()) ==>
      Announced(notices, listener, ConfigurationChanged(None, None, Kind())) &&
      (r.Success? || r.error == IllegalStateException) && (listener == null ==> r.Success?)
    ensures !lib.checkValidity(DefaultConfiguration()) ==>
      r == Failure(IllegalStateException) && notices == []
  {
    var c := new SurfDescriptorStabilityController.Init(listener, lib);
    var o;
    o, notices := c.Update();
    r := if o.Pass? then Success(c) else Failure(IllegalStateException);
  }

  /** `update()` with this controller's current configuration and type. */
  method Update() returns (r: Outcome, ghost notices: seq<Notice>)
    modifies base, base.Downstream()
    ensures base.defaulted == old(base.defaulted)
    ensures base.Installed(CurrentConfiguration(), Kind(), r, notices)
    ensures !base.lib.checkValidity(CurrentConfiguration()) ==> unchanged(old(base.Downstream()))
  {
    r, notices := base.Update(CurrentConfiguration(), Kind());
  }

  /** `setDefaulted(d)`, inherited from `BaseController`. */
  method SetDefaulted(d: bool) returns (r: Outcome, ghost notices: seq<Notice>)
    modifies base, base.Downstream()
    ensures base.defaulted == d && base.listener == old(base.listener)
    ensures old(base.defaulted) == d ==> r == Pass && notices == [] && unchanged(base)
    ensures old(base.defaulted) == d || !base.lib.checkValidity(CurrentConfiguration()) ==>
      unchanged(old(base.Downstream()))
    ensures old(base.defaulted) != d && base.lib.checkValidity(CurrentConfiguration()) ==>
      base.Installed(CurrentConfiguration(), Kind(), r, notices)
    ensures old(base.defaulted) != d && !base.lib.checkValidity(CurrentConfiguration()) ==>
      r == Pass && notices == [] && base.configuration == old(base.configuration)
  {
    r, notices := base.SetDefaulted(d, CurrentConfiguration(), Kind());
  }

  /** `setOverLap`: a no-op for the current value; otherwise stores it and runs `update()`. */
  method SetOverLap(v: int) returns (r: Outcome, ghost notices: seq<Notice>)
    modifies this, base, base.Downstream()
    ensures base.defaulted == old(base.defaulted)
    ensures CurrentConfiguration() == ConfigSurfStability(v, old(sigmaLargeGrid), old(sigmaSubRegion))
    ensures old(overLap) == v ==>
      r == Pass && notices == [] && unchanged(base) && unchanged(old(base.Downstream()))
    ensures old(overLap) != v ==> base.Installed(CurrentConfiguration(), Kind(), r, notices)
    ensures old(overLap) != v && !base.lib.checkValidity(CurrentConfiguration()) ==>
      unchanged(old(base.Downstream()))
  {
    if overLap == v {
      return Pass, [];
    }
    overLap := v;
    r, notices := Update();
  }

  /** `setSigmaLargeGrid`: a no-op for the current value; otherwise stores it and runs `update()`. */
  method SetSigmaLargeGrid(v: real) returns (r: Outcome, ghost notices: seq<Notice>)
    modifies this, base, base.Downstream()
    ensures base.defaulted == old(base.defaulted)
    ensures CurrentConfiguration() == ConfigSurfStability(old(overLap), v, old(sigmaSubRegion))
    ensures old(sigmaLargeGrid) == v ==>
      r == Pass && notices == [] && unchanged(base) && unchanged(old(base.Downstream()))
    ensures old(sigmaLargeGrid) != v ==> base.Installed(CurrentConfiguration(), Kind(), r, notices)
    ensures old(sigmaLargeGrid) != v && !base.lib.checkValidity(CurrentConfiguration()) ==>
      unchanged(old(base.Downstream()))
  {
    if sigmaLargeGrid == v {
      return Pass, [];
    }
    sigmaLargeGrid := v;
    r, notices := Update();
  }

  /** `setSigmaSubRegion`: a no-op for the current value; otherwise stores it and runs `update()`. */
  method SetSigmaSubRegion(v: real) returns (r: Outcome, ghost notices: seq<Notice>)
    modifies this, base, base.Downstream()
    ensures base.defaulted == old(base.defaulted)
    ensures CurrentConfiguration() == ConfigSurfStability(old(overLap), old(sigmaLargeGrid), v)
    ensures old(sigmaSubRegion) == v ==>
      r == Pass && notices == [] && unchanged(base) && unchanged(old(base.Downstream()))
    ensures old(sigmaSubRegion) != v ==> base.Installed(CurrentConfiguration(), Kind(), r, notices)
    ensures old(sigmaSubRegion) != v && !base.lib.checkValidity(CurrentConfiguration()) ==>
      unchanged(old(base.Downstream()))
  {
    if sigmaSubRegion == v {
      return Pass, [];
    }
    sigmaSubRegion := v;
    r, notices := Update();
  }

  /**
   * `equals`: the inherited state and every field. Because the fields determine the
   * configuration they describe, that is the same as equal inherited state and equal
   * current configurations.
   */
  predicate Equals(that: SurfDescriptorStabilityController)
    reads this, base, that, that.base
    ensures Equals(that) <==>
      base.Equals(that.base) && CurrentConfiguration() == that.CurrentConfiguration()
  {
    base.Equals(that.base) && overLap == that.overLap && sigmaLargeGrid == that.sigmaLargeGrid && sigmaSubRegion == that.sigmaSubRegion
  }

  /** `hashCode`: the inherited hash extended with every field. */
  function HashCode(h: Hashes): (r: int)
    requires base.configuration.Some?
    ensures IsInt32(r)
    reads this, base
  {
    Hash31(Hash31(Hash31(base.HashCode(h), overLap), h.ofDouble(sigmaLargeGrid)), h.ofDouble(sigmaSubRegion))
  }
}

/** `equals` and `hashCode` agree: equal controllers hash equally. */
lemma EqualSurfDescriptorStabilityControllersHashEqually(a: SurfDescriptorStabilityController, b: SurfDescriptorStabilityController, h: Hashes)
  requires a.base.configuration.Some? && a.Equals(b)
  ensures b.base.configuration.Some? && a.HashCode(h) == b.HashCode(h)
{
}
