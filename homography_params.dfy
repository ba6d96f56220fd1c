/** The five settings of `HomographyParams`. */
datatype HomographySettings = HomographySettings(normalize: bool, errorMetric: ErrorMetric,
                                                 randomizeSeed: int, numIterations: int,
                                                 thresholdFit: real)

/**
 * `HomographyParams`: the settings of RANSAC and of the linear homography estimator, and
 * the estimator and matcher built from them on first use. The listener is told whenever a
 * setting changes, but the estimator and matcher are returned from their caches and so are
 * never rebuilt once they exist.
 */
class HomographyParams {
  static const DEFAULT_NORMALIZE: bool := true
  static const DEFAULT_ERROR_METRIC: ErrorMetric := RESIDUAL_SAMPSON
  static const DEFAULT_RANDOMIZE_SEED: int := 123123
  static const DEFAULT_NUM_ITERATIONS: int := 1000
  static const DEFAULT_THRESHOLD_FIT: real := 1.0

  var normalize: bool
  var errorMetric: ErrorMetric
  var randomizeSeed: int
  var numIterations: int
  var thresholdFit: real
  var modelMatcher: ModelMatcher?
  var homographyComputer: HomographyComputer?
  /** `listener`: the homography calculator told about a new estimator or matcher. */
  var listener: HomographyCalculator?

  /** The settings of `new HomographyParams()`. */
  static function DefaultSettings(): HomographySettings
  {
    HomographySettings(DEFAULT_NORMALIZE, DEFAULT_ERROR_METRIC, DEFAULT_RANDOMIZE_SEED,
                       DEFAULT_NUM_ITERATIONS, DEFAULT_THRESHOLD_FIT)
  }

  /** The settings held in the fields. */
  function Settings(): HomographySettings
    reads this
  {
    HomographySettings(normalize, errorMetric, randomizeSeed, numIterations, thresholdFit)
  }

  /** The objects a change of these parameters may touch: themselves and the listener's. */
  ghost function Footprint(): set<object>
    reads this
  {
    {this} + if listener == null then {} else listener.Footprint()
  }

  /** The settings and the listener are as they were; an estimator or matcher built is kept. */
  twostate predicate CachesOnlyFilled()
    reads this
  {
    Settings() == old(Settings()) && listener == old(listener) &&
    (old(homographyComputer) != null ==> homographyComputer == old(homographyComputer)) &&
    (old(modelMatcher) != null ==> modelMatcher == old(modelMatcher))
  }

  /**
   * An estimator is kept: the one there was or, when there was none, a new one for the
   * current normalization flag.
   */
  twostate predicate ComputerReady()
    reads this
  {
    homographyComputer != null &&
    (old(homographyComputer) != null ==> homographyComputer == old(homographyComputer)) &&
    (old(homographyComputer) == null ==>
       fresh(homographyComputer) && homographyComputer.normalize == normalize)
  }

  /**
   * A matcher is kept: the one there was or, when there was none, a new one built on the
   * kept estimator with the current seed, metric, iteration count and threshold.
   */
  twostate predicate MatcherReady()
    reads this
  {
    modelMatcher != null &&
    (old(modelMatcher) != null ==> modelMatcher == old(modelMatcher)) &&
    (old(modelMatcher) == null ==>
       ComputerReady() && fresh(modelMatcher) && modelMatcher.generator == homographyComputer &&
       modelMatcher.Setup() == MatcherSetup(randomizeSeed, homographyComputer.normalize,
                                            errorMetric, numIterations, thresholdFit))
  }

  /** `new HomographyParams(normalize, errorMetric, randomizeSeed, numIterations, thresholdFit)` */
  constructor (normalize: bool, errorMetric: ErrorMetric, randomizeSeed: int,
               numIterations: int, thresholdFit: real)
    ensures Settings() == HomographySettings(normalize, errorMetric, randomizeSeed,
                                             numIterations, thresholdFit)
    ensures modelMatcher == null && homographyComputer == null && listener == null
  {
    this.normalize := normalize;
    this.errorMetric := errorMetric;
    this.randomizeSeed := randomizeSeed;
    this.numIterations := numIterations;
    this.thresholdFit := thresholdFit;
    modelMatcher := null;
    homographyComputer := null;
    listener := null;
  }

  /** `new HomographyParams()` */
  constructor Default()
    ensures Settings() == DefaultSettings()
    ensures modelMatcher == null && homographyComputer == null && listener == null
  {
    normalize := DEFAULT_NORMALIZE;
    errorMetric := DEFAULT_ERROR_METRIC;
    randomizeSeed := DEFAULT_RANDOMIZE_SEED;
    numIterations := DEFAULT_NUM_ITERATIONS;
    thresholdFit := DEFAULT_THRESHOLD_FIT;
    modelMatcher := null;
    homographyComputer := null;
    listener := null;
  }

  /** `getHomographyComputer()`: built on first use from the normalization flag, then kept. */
  method GetHomographyComputer() returns (c: HomographyComputer)
    modifies this
    ensures Settings() == old(Settings()) && listener == old(listener)
    ensures modelMatcher == old(modelMatcher)
    ensures ComputerReady() && c == homographyComputer
  {
    if homographyComputer == null {
      homographyComputer := new HomographyComputer(normalize);
    }
    c := homographyComputer;
  }

  /** `getModelMatcher()`: built on first use by `createMatcher()`, then kept. */
  method GetModelMatcher() returns (m: ModelMatcher)
    modifies this
    ensures CachesOnlyFilled() && MatcherReady() && m == modelMatcher
    ensures old(modelMatcher) != null ==> unchanged(this)
  {
    if modelMatcher == null {
      modelMatcher := CreateMatcher();
    }
    m := modelMatcher;
  }

  /** `createMatcher()`: RANSAC over the estimator, with the current settings. */
  method CreateMatcher() returns (m: ModelMatcher)
    modifies this
    ensures Settings() == old(Settings()) && listener == old(listener)
    ensures modelMatcher == old(modelMatcher) && ComputerReady()
    ensures fresh(m) && m.generator == homographyComputer
    ensures m.Setup() == MatcherSetup(randomizeSeed, homographyComputer.normalize, errorMetric,
                                      numIterations, thresholdFit)
  {
    var c := GetHomographyComputer();
    m := new ModelMatcher(randomizeSeed, c, errorMetric, numIterations, thresholdFit);
  }

  /**
   * `updateModelMatcher()`: the matcher from `getModelMatcher()` (the cached one, when there
   * is one) is announced to the listener as (new, old).
   */
  method UpdateModelMatcher() returns (r: Outcome, ghost notices: seq<Notice>)
    modifies Footprint()
    ensures CachesOnlyFilled() && MatcherReady()
    ensures Announced(notices, listener, MatcherChanged(modelMatcher, old(modelMatcher)))
    ensures (r == Pass || r == Fail(IllegalStateException)) && (listener == null ==> r == Pass)
  {
    var oldVal := modelMatcher;
    var m := GetModelMatcher();
    r, notices := Pass, [];
    if listener != null {
      ghost var reaction;
      r, reaction := listener.OnModelMatcherChanged(m, oldVal);
      notices := [Notice(listener, MatcherChanged(m, oldVal), reaction)];
    }
  }

  /**
   * The outcome of `updateHomographyComputer()`: the estimator is kept or built and
   * announced as (new, old); unless the listener threw, the matcher is then made ready and
   * announced too.
   */
  twostate predicate ComputerUpdated(r: Outcome, new notices: seq<Notice>)
    reads this
  {
    listener == old(listener) && ComputerReady() &&
    (old(modelMatcher) != null ==> modelMatcher == old(modelMatcher)) &&
    (listener == null ==> r == Pass && notices == [] && MatcherReady()) &&
    (listener != null ==>
       1 <= |notices| <= 2 && notices[0].to == listener &&
       notices[0].message == ComputerChanged(homographyComputer, old(homographyComputer)) &&
       (r == Pass || r == Fail(IllegalStateException)) &&
       (r == Pass ==>
          |notices| == 2 && MatcherReady() && notices[1].to == listener &&
          notices[1].message == MatcherChanged(modelMatcher, old(modelMatcher))))
  }

  /**
   * `updateHomographyComputer()`: the estimator from `getHomographyComputer()` is announced
   * as (new, old), then the matcher is updated and announced. An exception from the first
   * notice skips the second.
   */
  method UpdateHomographyComputer() returns (r: Outcome, ghost notices: seq<Notice>)
    modifies Footprint()
    ensures Settings() == old(Settings()) && ComputerUpdated(r, notices)
  {
    var oldVal := homographyComputer;
    var c := GetHomographyComputer();
    r, notices := Pass, [];
    if listener != null {
      ghost var reaction;
      r, reaction := listener.OnHomographyComputerChanged(c, oldVal);
      notices := [Notice(listener, ComputerChanged(c, oldVal), reaction)];
      if r.Fail? {
        return;
      }
    }
    ghost var more;
    r, more := UpdateModelMatcher();
    notices := notices + more;
  }

  /**
   * `setNormalize`: a no-op for the current value; otherwise updates the estimator, which
   * takes the new flag only when none was built before.
   */
  method SetNormalize(b: bool) returns (r: Outcome, ghost notices: seq<Notice>)
    modifies Footprint()
    ensures Settings() == old(Settings()).(normalize := b)
    ensures b == old(normalize) ==> r == Pass && notices == [] && unchanged(old(Footprint()))
    ensures b != old(normalize) ==> ComputerUpdated(r, notices)
  {
    if normalize == b {
      return Pass, [];
    }
    normalize := b;
    r, notices := UpdateHomographyComputer();
  }

  /**
   * The outcome of a matcher setting's update: the new settings are kept, the matcher is
   * the one there was (a new one only when there was none) and it is announced.
   */
  twostate predicate MatcherUpdated(s: HomographySettings, r: Outcome, new notices: seq<Notice>)
    reads this
  {
    Settings() == s && listener == old(listener) &&
    (old(homographyComputer) != null ==> homographyComputer == old(homographyComputer)) &&
    MatcherReady() &&
    Announced(notices, listener, MatcherChanged(modelMatcher, old(modelMatcher))) &&
    (r == Pass || r == Fail(IllegalStateException)) && (listener == null ==> r == Pass)
  }

  /**
   * `setErrorMetric`: null is refused with `IllegalArgumentException`; the current metric
   * changes nothing; otherwise the matcher is updated.
   */
  method SetErrorMetric(m: Option<ErrorMetric>) returns (r: Outcome, ghost notices: seq<Notice>)
    modifies Footprint()
    ensures m.None? ==>
      r == Fail(IllegalArgumentException) && notices == [] && unchanged(old(Footprint()))
    ensures m == Some(old(errorMetric)) ==> r == Pass && notices == [] && unchanged(old(Footprint()))
    ensures m.Some? && m.value != old(errorMetric) ==>
      MatcherUpdated(old(Settings()).(errorMetric := m.value), r, notices)
  {
    if m.None? {
      return Fail(IllegalArgumentException), [];
    }
    if errorMetric == m.value {
      return Pass, [];
    }
    errorMetric := m.value;
    r, notices := UpdateModelMatcher();
  }

  /**
   * `setRandomizeSeed`: a non-positive seed is refused with `ConfigException`; the current
   * seed changes nothing; otherwise the matcher is updated.
   */
  method SetRandomizeSeed(seed: int) returns (r: Outcome, ghost notices: seq<Notice>)
    modifies Footprint()
    ensures seed <= 0 ==> r == Fail(ConfigException) && notices == [] && unchanged(old(Footprint()))
    ensures seed > 0 && seed == old(randomizeSeed) ==>
      r == Pass && notices == [] && unchanged(old(Footprint()))
    ensures seed > 0 && seed != old(randomizeSeed) ==>
      MatcherUpdated(old(Settings()).(randomizeSeed := seed), r, notices)
  {
    if seed <= 0 {
      return Fail(ConfigException), [];
    }
    if randomizeSeed == seed {
      return Pass, [];
    }
    randomizeSeed := seed;
    r, notices := UpdateModelMatcher();
  }

  /**
   * `setNumIterations`: a non-positive count is refused with `ConfigException`; the current
   * count changes nothing; otherwise the matcher is updated.
   */
  method SetNumIterations(n: int) returns (r: Outcome, ghost notices: seq<Notice>)
    modifies Footprint()
    ensures n <= 0 ==> r == Fail(ConfigException) && notices == [] && unchanged(old(Footprint()))
    ensures n > 0 && n == old(numIterations) ==>
      r == Pass && notices == [] && unchanged(old(Footprint()))
    ensures n > 0 && n != old(numIterations) ==>
      MatcherUpdated(old(Settings()).(numIterations := n), r, notices)
  {
    if n <= 0 {
      return Fail(ConfigException), [];
    }
    if numIterations == n {
      return Pass, [];
    }
    numIterations := n;
    r, notices := UpdateModelMatcher();
  }

  /**
   * `setThresholdFit`: a non-positive threshold is refused with `ConfigException`; the
   * current threshold changes nothing; otherwise the matcher is updated.
   */
  method SetThresholdFit(t: real) returns (r: Outcome, ghost notices: seq<Notice>)
    modifies Footprint()
    ensures t <= 0.0 ==> r == Fail(ConfigException) && notices == [] && unchanged(old(Footprint()))
    ensures t > 0.0 && t == old(thresholdFit) ==>
      r == Pass && notices == [] && unchanged(old(Footprint()))
    ensures t > 0.0 && t != old(thresholdFit) ==>
      MatcherUpdated(old(Settings()).(thresholdFit := t), r, notices)
  {
    if t <= 0.0 {
      return Fail(ConfigException), [];
    }
    if thresholdFit == t {
      return Pass, [];
    }
    thresholdFit := t;
    r, notices := UpdateModelMatcher();
  }

  /** `setListener(l)` */
  method SetListener(l: HomographyCalculator?)
    modifies this
    ensures listener == l && Settings() == old(Settings())
    ensures modelMatcher == old(modelMatcher) && homographyComputer == old(homographyComputer)
  {
    listener := l;
  }

  /** `equals`: the five settings. */
  predicate Equals(that: HomographyParams)
    reads this, that
    ensures this == that ==> Equals(that)
  {
    Settings() == that.Settings()
  }

  /** `hashCode`: the five settings, in Java `int` arithmetic. */
  function HashCode(h: Hashes): (r: int)
    reads this
    ensures IsInt32(r)
  {
    Hash31(Hash31(Hash31(Hash31(BoolHash(normalize), h.ofErrorMetric(errorMetric)),
                         h.ofLong(randomizeSeed)), numIterations), h.ofDouble(thresholdFit))
  }
}

/** Equal homography parameters have equal hash codes. */
lemma EqualHomographyParamsHashEqually(p: HomographyParams, q: HomographyParams, h: Hashes)
  requires p.Equals(q)
  ensures p.HashCode(h) == q.HashCode(h)
{
}
