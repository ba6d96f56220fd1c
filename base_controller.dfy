/**
 * `BaseController`: the state every controller shares, is kept by composition; each
 * controller owns one `BaseController` and passes it its current configuration and type.
 */
class BaseController {
  /** `mDefaulted`: whether the client asked for the built-in defaults. */
  var defaulted: bool
  /** `mConfiguration`: the last configuration that passed validation (null before the first). */
  var configuration: Option<Configuration>
  /** `mListener` */
  var listener: FeatureDetectionParams?
  /** The foreign `checkValidity` a configuration must pass. */
  const lib: Library

  constructor (listener: FeatureDetectionParams?, lib: Library)
    ensures defaulted && configuration == None
    ensures this.listener == listener && this.lib == lib
  {
    defaulted := true;
    configuration := None;
    this.listener := listener;
    this.lib := lib;
  }

  /** The objects a notice to the listener may change. */
  ghost function Downstream(): set<object>
    reads this, listener, if listener == null then {} else {listener.listener}
  {
    if listener == null then {} else listener.Footprint()
  }

  /**
   * The state `update()` leaves behind for configuration `c`: an invalid one is refused with
   * a `ConfigException` and nothing else happens; a valid one is installed and announced to
   * the listener as (null when defaulted, otherwise the new configuration; the old one).
   * Only `IllegalStateException` can come back from the listener.
   */
  twostate predicate Installed(c: Configuration, kind: ConfigurationType, r: Outcome,
                               new notices: seq<Notice>)
    reads this
  {
    listener == old(listener) &&
    if lib.checkValidity(c) then
      configuration == Some(c) &&
      Announced(notices, listener,
                ConfigurationChanged(if defaulted then None else Some(c), old(configuration), kind)) &&
      (listener == null ==> r == Pass) &&
      (r == Pass || r == Fail(IllegalStateException))
    else
      configuration == old(configuration) && r == Fail(ConfigException) && notices == []
  }

  /** `update()`, given `getCurrentConfiguration()` as `c` and `getConfigurationType()` as `kind`. */
  method Update(c: Configuration, kind: ConfigurationType) returns (r: Outcome, ghost notices: seq<Notice>)
    modifies this, Downstream()
    ensures defaulted == old(defaulted)
    ensures Installed(c, kind, r, notices)
    ensures !lib.checkValidity(c) ==> unchanged(old(Downstream()))
  {
    if !lib.checkValidity(c) {
      return Fail(ConfigException), [];
    }
    var oldVal := configuration;
    configuration := Some(c);
    r, notices := Pass, [];
    if listener != null {
      var newVal := if defaulted then None else configuration;
      ghost var reaction;
      r, reaction := listener.OnConfigurationChanged(newVal, oldVal, kind);
      notices := [Notice(listener, ConfigurationChanged(newVal, oldVal, kind), reaction)];
    }
  }

  /**
   * `setDefaulted(d)`: a no-op when the flag already has that value; otherwise it flips the
   * flag and runs `update()`, swallowing a `ConfigException`.
   */
  method SetDefaulted(d: bool, c: Configuration, kind: ConfigurationType)
    returns (r: Outcome, ghost notices: seq<Notice>)
    modifies this, Downstream()
    ensures defaulted == d && listener == old(listener)
    ensures old(defaulted) == d ==> r == Pass && notices == [] && unchanged(this)
    ensures old(defaulted) == d || !lib.checkValidity(c) ==> unchanged(old(Downstream()))
    ensures old(defaulted) != d && lib.checkValidity(c) ==> Installed(c, kind, r, notices)
    ensures old(defaulted) != d && !lib.checkValidity(c) ==>
      r == Pass && notices == [] && configuration == old(configuration)
  {
    if defaulted == d {
      return Pass, [];
    }
    defaulted := d;
    r, notices := Update(c, kind);
    if r == Fail(ConfigException) {
      r := Pass;
    }
  }

  /** `setListener(l)` */
  method SetListener(l: FeatureDetectionParams?)
    modifies this
    ensures listener == l && defaulted == old(defaulted) && configuration == old(configuration)
  {
    listener := l;
  }

  /** `equals`: the same defaulted flag and equal installed configurations. */
  predicate Equals(that: BaseController)
    reads this, that
    ensures this == that ==> Equals(that)
  {
    defaulted == that.defaulted && configuration == that.configuration
  }

  /** `hashCode`, defined once a configuration is installed. */
  function HashCode(h: Hashes): (r: int)
    requires configuration.Some?
    ensures IsInt32(r)
    reads this
  {
    Hash31(BoolHash(defaulted), h.ofConfiguration(configuration.value))
  }
}

/** `equals` and `hashCode` agree: equal base controllers hash equally. */
lemma EqualBaseControllersHashEqually(a: BaseController, b: BaseController, h: Hashes)
  requires a.configuration.Some? && a.Equals(b)
  ensures b.configuration.Some? && a.HashCode(h) == b.HashCode(h)
{
}
