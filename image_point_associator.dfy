/**
 * The features of one image as the associator keeps them: none, or a detection result
 * whose descriptors and points correspond one to one, as `describeImage` builds them.
 */
type Features = o: Option<DetectionResultArgument> |
  o.None? || |o.value.descriptors| == |o.value.points|
  witness None

/** The descriptors of the detected features, in detection order. */
function Descriptions(fs: seq<Feature>): (r: seq<SurfFeature>)
  ensures |r| == |fs| && forall i :: 0 <= i < |fs| ==> r[i] == fs[i].description
{
  if fs == [] then [] else Descriptions(fs[..|fs| - 1]) + [fs[|fs| - 1].description]
}

/** The locations of the detected features, in detection order. */
function Locations(fs: seq<Feature>): (r: seq<Point2D>)
  ensures |r| == |fs| && forall i :: 0 <= i < |fs| ==> r[i] == fs[i].location
{
  if fs == [] then [] else Locations(fs[..|fs| - 1]) + [fs[|fs| - 1].location]
}

/** Every index pair addresses a point of each result. */
predicate InRange(first: DetectionResultArgument, second: DetectionResultArgument,
                  idx: seq<AssociatedIndex>)
{
  forall k :: 0 <= k < |idx| ==>
    0 <= idx[k].src < |first.points| && 0 <= idx[k].dst < |second.points|
}

/**
 * The point pairs the index pairs select: for match `k`, the source point of the first
 * result and the destination point of the second.
 */
function Matched(first: DetectionResultArgument, second: DetectionResultArgument,
                 idx: seq<AssociatedIndex>): (r: seq<AssociatedPair>)
  requires InRange(first, second, idx)
  ensures |r| == |idx|
  ensures forall k :: 0 <= k < |idx| ==>
    r[k] == AssociatedPair(first.points[idx[k].src], second.points[idx[k].dst])
  ensures forall p :: p in r ==> p.p1 in first.points && p.p2 in second.points
{
  if idx == [] then []
  else
    var last := idx[|idx| - 1];
    Matched(first, second, idx[..|idx| - 1]) +
    [AssociatedPair(first.points[last.src], second.points[last.dst])]
}

/**
 * `ImagePointAssociator`: detects and describes features in a reference image and another
 * image with the detector of its parameter set, matches them with the parameter set's
 * associator, and tells its listeners about every new list of matches.
 */
class ImagePointAssociator {
  /** `parameters`: the feature-detection settings, which report to this associator. */
  const parameters: FeatureDetectionParams
  /** The foreign image conversion, detection and association. */
  const lib: Library

  var referenceImage: Option<BufferedImage>
  var otherImage: Option<BufferedImage>
  var referenceImageFeatures: Features
  var otherImageFeatures: Features
  var matches: Option<seq<AssociatedPair>>
  /** `listeners`: a `HashSet`, so each listener is held once and in no order. */
  var listeners: set<HomographyCalculator>

  /** The objects a notice to this associator may change. */
  ghost function Footprint(): set<object>
    reads this
  {
    {this, parameters} + listeners + set h | h in listeners :: h.parameters
  }

  /** The images and the listeners are as they were. */
  twostate predicate SameWiring()
    reads this
  {
    referenceImage == old(referenceImage) && otherImage == old(otherImage) &&
    listeners == old(listeners)
  }

  /** What `describeImage` finds in `image` with the detector `d` (the parameter set's current one). */
  function FeaturesOf(d: DetectDescribe, image: BufferedImage): (r: DetectionResultArgument)
    ensures |r.descriptors| == |r.points|
  {
    var input := lib.convert(image);
    var fs := lib.detect(d.setup, input);
    DetectionResultArgument(Descriptions(fs), Locations(fs), input)
  }

  /**
   * The matches are those the parameter set's associator finds between the current features
   * of both images, whenever both are described.
   */
  predicate MatchesCurrent()
    reads this, parameters
  {
    referenceImageFeatures.Some? && otherImageFeatures.Some? ==>
      var first, second := referenceImageFeatures.value, otherImageFeatures.value;
      parameters.currentAssociater != null &&
      var idx := lib.associate(parameters.currentAssociater.setup, first.descriptors,
                               second.descriptors);
      InRange(first, second, idx) && matches == Some(Matched(first, second, idx))
  }

  /**
   * `update()` has run: with features of both images, the matches are recomputed with the
   * parameter set's associator and every listener is told (new, old) once, until one throws;
   * otherwise nothing happens.
   */
  twostate predicate Reassociated(r: Outcome, new notices: seq<Notice>)
    reads this, parameters
  {
    if referenceImageFeatures.None? || otherImageFeatures.None? then
      r == Pass && notices == [] && matches == old(matches)
    else
      var first, second := referenceImageFeatures.value, otherImageFeatures.value;
      parameters.currentAssociater != null &&
      var idx := lib.associate(parameters.currentAssociater.setup, first.descriptors,
                               second.descriptors);
      InRange(first, second, idx) &&
      matches == Some(Matched(first, second, idx)) &&
      (r == Pass || r == Fail(IllegalStateException)) &&
      (forall n | n in notices :: n.to in listeners &&
                                n.message == MatchesUpdated(matches.value, old(matches))) &&
      (forall i, j :: 0 <= i < j < |notices| ==> notices[i].to != notices[j].to) &&
      (r == Pass ==> Recipients(notices) == listeners)
  }

  /** `new ImagePointAssociator(params)` once the argument is known to be present. */
  constructor (params: FeatureDetectionParams, lib: Library)
    modifies params
    ensures parameters == params && this.lib == lib
    ensures referenceImage.None? && otherImage.None?
    ensures referenceImageFeatures.None? && otherImageFeatures.None?
    ensures matches.None? && listeners == {}
    ensures params.listener == this && params.Settings() == old(params.Settings())
    ensures params.currentDetDesc == old(params.currentDetDesc)
    ensures params.currentAssociater == old(params.currentAssociater)
  {
    parameters := params;
    this.lib := lib;
    referenceImage := None;
    otherImage := None;
    referenceImageFeatures := None;
    otherImageFeatures := None;
    matches := None;
    listeners := {};
    new;
    params.SetListener(this);
  }

  /**
   * `new ImagePointAssociator(params)`: null parameters are refused with
   * `NullPointerException`; otherwise the parameters report to the new associator.
   */
  static method Create(params: FeatureDetectionParams?, lib: Library)
    returns (r: Result<ImagePointAssociator>)
    modifies params
    ensures params == null ==> r == Failure(NullPointerException)
    ensures params != null ==>
      r.Success? && fresh(r.value) && r.value.parameters == params &&
      r.value.listeners == {} && r.value.matches.None? &&
      params.listener == r.value && params.Settings() == old(params.Settings())
  {
    if params == null {
      return Failure(NullPointerException);
    }
    var a := new ImagePointAssociator(params, lib);
    r := Success(a);
  }

  /** The descriptors and locations of the detected features, gathered in one pass. */
  static method CollectFeatures(fs: seq<Feature>) returns (descs: seq<SurfFeature>, points: seq<Point2D>)
    ensures descs == Descriptions(fs) && points == Locations(fs)
  {
    descs, points := [], [];
    var i := 0;
    while i < |fs|
      invariant 0 <= i <= |fs|
      invariant descs == Descriptions(fs[..i]) && points == Locations(fs[..i])
    {
      assert fs[..i + 1][..i] == fs[..i];
      descs := descs + [fs[i].description];
      points := points + [fs[i].location];
      i := i + 1;
    }
    assert fs[..i] == fs;
  }

  /** The loop of `associate` that turns index pairs into point pairs. */
  static method PairUp(first: DetectionResultArgument, second: DetectionResultArgument,
                       idx: seq<AssociatedIndex>)
    returns (ps: seq<AssociatedPair>)
    requires InRange(first, second, idx)
    ensures ps == Matched(first, second, idx)
  {
    ps := [];
    var i := 0;
    while i < |idx|
      invariant 0 <= i <= |idx|
      invariant InRange(first, second, idx[..i]) && ps == Matched(first, second, idx[..i])
    {
      assert idx[..i + 1][..i] == idx[..i];
      var a := idx[i];
      ps := ps + [AssociatedPair(first.points[a.src], second.points[a.dst])];
      i := i + 1;
    }
    assert idx[..i] == idx;
  }

  /**
   * `describeImage(ImageFloat32)`: nothing for a null image; otherwise the features the
   * parameter set's detector (built now, if there is none yet) finds in it.
   */
  method DescribeInput(input: Option<ImageFloat32>) returns (f: Features)
    modifies parameters
    ensures input.None? ==> f.None? && unchanged(parameters)
    ensures input.Some? ==>
      parameters.CachesOnlyFilled() && parameters.DetectorReady() &&
      parameters.currentAssociater == old(parameters.currentAssociater) &&
      var fs := lib.detect(parameters.currentDetDesc.setup, input.value);
      f == Some(DetectionResultArgument(Descriptions(fs), Locations(fs), input.value))
  {
    if input.None? {
      return None;
    }
    var detDesc := parameters.GetCurrentDetDesc();
    var fs := lib.detect(detDesc.setup, input.value);
    var descs, points := CollectFeatures(fs);
    f := Some(DetectionResultArgument(descs, points, input.value));
  }

  /** `describeImage(BufferedImage)`: nothing for a null image; otherwise its features. */
  method DescribeImage(image: Option<BufferedImage>) returns (f: Features)
    modifies parameters
    ensures image.None? ==> f.None? && unchanged(parameters)
    ensures image.Some? ==>
      parameters.CachesOnlyFilled() && parameters.DetectorReady() &&
      parameters.currentAssociater == old(parameters.currentAssociater) &&
      f == Some(FeaturesOf(parameters.currentDetDesc, image.value))
  {
    if image.None? {
      return None;
    }
    f := DescribeInput(Some(lib.convert(image.value)));
  }

  /**
   * `associate(first, second)`: the parameter set's associator (built now, if there is none
   * yet) matches the descriptors, and each match becomes the pair of its points.
   */
  method Associate(first: DetectionResultArgument, second: DetectionResultArgument)
    returns (ps: seq<AssociatedPair>)
    requires |first.descriptors| == |first.points| && |second.descriptors| == |second.points|
    modifies parameters
    ensures parameters.CachesOnlyFilled() && parameters.currentAssociater != null
    ensures old(parameters.currentAssociater) != null ==> unchanged(parameters)
    ensures old(parameters.currentAssociater) == null ==>
      fresh(parameters.currentAssociater) &&
      parameters.currentAssociater.setup == parameters.AssociaterSettings() &&
      parameters.DetectorReady()
    ensures var idx := lib.associate(parameters.currentAssociater.setup, first.descriptors,
                                     second.descriptors);
      InRange(first, second, idx) && ps == Matched(first, second, idx)
  {
    var a := parameters.GetCurrentAssociater();
    var idx := lib.associate(a.setup, first.descriptors, second.descriptors);
    ps := PairUp(first, second, idx);
  }

  /**
   * `update()`: with features of both images the matches are recomputed and each listener
   * is told (new, old); an exception from a listener ends the round.
   */
  method Update() returns (r: Outcome, ghost notices: seq<Notice>)
    modifies Footprint()
    ensures SameWiring() && parameters.CachesOnlyFilled()
    ensures referenceImageFeatures == old(referenceImageFeatures)
    ensures otherImageFeatures == old(otherImageFeatures)
    ensures Reassociated(r, notices)
    ensures forall h | h in old(listeners) :: h.SameWiring()
  {
    if referenceImageFeatures.None? || otherImageFeatures.None? {
      return Pass, [];
    }
    var oldMatches := matches;
    var ms := Associate(referenceImageFeatures.value, otherImageFeatures.value);
    matches := Some(ms);
    r, notices := Notify(ms, oldMatches);
  }

  /**
   * The loop of `update()`: each listener, in no particular order, is told (new, old) once,
   * and the first exception ends the round.
   */
  method Notify(ms: seq<AssociatedPair>, oldMatches: Option<seq<AssociatedPair>>)
    returns (r: Outcome, ghost notices: seq<Notice>)
    modifies listeners, set h | h in listeners :: h.parameters
    ensures r == Pass || r == Fail(IllegalStateException)
    ensures forall n | n in notices :: n.to in listeners && n.message == MatchesUpdated(ms, oldMatches)
    ensures forall i, j :: 0 <= i < j < |notices| ==> notices[i].to != notices[j].to
    ensures r == Pass ==> Recipients(notices) == listeners
    ensures forall g | g in listeners :: g.SameWiring()
  {
    var m := MatchesUpdated(ms, oldMatches);
    r, notices := Pass, [];
    var todo := listeners;
    while todo != {} && r == Pass
      invariant todo <= listeners
      invariant r == Pass || r == Fail(IllegalStateException)
      invariant DeliveredOnce(notices, listeners - todo, m)
      invariant forall g | g in listeners :: g.SameWiring()
      decreases todo
    {
      var h :| h in todo;
      ghost var reaction;
      r, reaction := h.OnMatchesUpdate(Some(ms), oldMatches);
      DeliveredOnceSnoc(notices, listeners - todo, m, Notice(h, m, reaction));
      assert listeners - (todo - {h}) == (listeners - todo) + {h};
      notices := notices + [Notice(h, m, reaction)];
      todo := todo - {h};
    }
  }

  /**
   * `setReferenceImage`: null or the current image changes nothing; otherwise the image is
   * kept, described, and the matches are updated.
   */
  method SetReferenceImage(image: Option<BufferedImage>) returns (r: Outcome, ghost notices: seq<Notice>)
    modifies Footprint()
    ensures image.None? || image == old(referenceImage) ==>
      r == Pass && notices == [] && unchanged(old(Footprint()))
    ensures image.Some? ==>
      referenceImage == image && otherImage == old(otherImage) && listeners == old(listeners)
    ensures image.Some? && image != old(referenceImage) ==>
      parameters.CachesOnlyFilled() && parameters.DetectorReady() &&
      otherImageFeatures == old(otherImageFeatures) &&
      referenceImageFeatures == Some(FeaturesOf(parameters.currentDetDesc, image.value)) &&
      Reassociated(r, notices)
    ensures forall h | h in old(listeners) :: h.SameWiring()
  {
    if image.None? || image == referenceImage {
      return Pass, [];
    }
    referenceImage := image;
    referenceImageFeatures := DescribeImage(image);
    assert parameters.controllers.Bases() !! Footprint();
    r, notices := Update();
  }

  /**
   * `setOtherImage`: null or the current image changes nothing; otherwise the image is
   * kept, described, and the matches are updated.
   */
  method SetOtherImage(image: Option<BufferedImage>) returns (r: Outcome, ghost notices: seq<Notice>)
    modifies Footprint()
    ensures image.None? || image == old(otherImage) ==>
      r == Pass && notices == [] && unchanged(old(Footprint()))
    ensures image.Some? ==>
      otherImage == image && referenceImage == old(referenceImage) && listeners == old(listeners)
    ensures image.Some? && image != old(otherImage) ==>
      parameters.CachesOnlyFilled() && parameters.DetectorReady() &&
      referenceImageFeatures == old(referenceImageFeatures) &&
      otherImageFeatures == Some(FeaturesOf(parameters.currentDetDesc, image.value)) &&
      Reassociated(r, notices)
    ensures forall h | h in old(listeners) :: h.SameWiring()
  {
    if image.None? || image == otherImage {
      return Pass, [];
    }
    otherImage := image;
    otherImageFeatures := DescribeImage(image);
    assert parameters.controllers.Bases() !! Footprint();
    r, notices := Update();
  }

  /**
   * `onDetDescChanged`: a null detector is ignored; otherwise both images are described
   * again with the detector now current, and the matches are updated.
   */
  method OnDetDescChanged(newVal: DetectDescribe?, oldVal: DetectDescribe?)
    returns (r: Outcome, ghost notices: seq<Notice>)
    modifies Footprint()
    ensures SameWiring() && parameters.CachesOnlyFilled()
    ensures r == Pass || r == Fail(IllegalStateException)
    ensures newVal == null ==> r == Pass && notices == [] && unchanged(old(Footprint()))
    ensures newVal != null && referenceImage.Some? ==>
      parameters.currentDetDesc != null &&
      referenceImageFeatures == Some(FeaturesOf(parameters.currentDetDesc, referenceImage.value))
    ensures newVal != null && otherImage.Some? ==>
      parameters.currentDetDesc != null &&
      otherImageFeatures == Some(FeaturesOf(parameters.currentDetDesc, otherImage.value))
    ensures newVal != null && referenceImage.None? ==> referenceImageFeatures.None?
    ensures newVal != null && otherImage.None? ==> otherImageFeatures.None?
    ensures newVal != null ==> Reassociated(r, notices)
    ensures forall h | h in old(listeners) :: h.SameWiring()
  {
    if newVal == null {
      return Pass, [];
    }
    referenceImageFeatures := DescribeImage(referenceImage);
    otherImageFeatures := DescribeImage(otherImage);
    r, notices := Update();
  }

  /** `onDescriptorAssociaterChanged`: a null associator is ignored; otherwise the matches are updated. */
  method OnDescriptorAssociaterChanged(newVal: Associater?, oldVal: Associater?)
    returns (r: Outcome, ghost notices: seq<Notice>)
    modifies Footprint()
    ensures SameWiring() && parameters.CachesOnlyFilled()
    ensures referenceImageFeatures == old(referenceImageFeatures)
    ensures otherImageFeatures == old(otherImageFeatures)
    ensures r == Pass || r == Fail(IllegalStateException)
    ensures newVal == null ==> r == Pass && notices == [] && unchanged(old(Footprint()))
    ensures newVal != null ==> Reassociated(r, notices)
    ensures forall h | h in old(listeners) :: h.SameWiring()
  {
    if newVal == null {
      return Pass, [];
    }
    r, notices := Update();
  }

  /** `addListener`: null is ignored; otherwise the listener joins the set. */
  method AddListener(l: HomographyCalculator?)
    modifies this
    ensures listeners == if l == null then old(listeners) else old(listeners) + {l}
    ensures referenceImage == old(referenceImage) && otherImage == old(otherImage)
    ensures referenceImageFeatures == old(referenceImageFeatures)
    ensures otherImageFeatures == old(otherImageFeatures) && matches == old(matches)
  {
    if l != null {
      listeners := listeners + {l};
    }
  }

  /** `removeListener`: the listener leaves the set; reports whether it was there. */
  method RemoveListener(l: HomographyCalculator?) returns (removed: bool)
    modifies this
    ensures removed <==> l != null && l in old(listeners)
    ensures listeners == if l == null then old(listeners) else old(listeners) - {l}
    ensures referenceImage == old(referenceImage) && otherImage == old(otherImage)
    ensures referenceImageFeatures == old(referenceImageFeatures)
    ensures otherImageFeatures == old(otherImageFeatures) && matches == old(matches)
  {
    if l == null {
      return false;
    }
    removed := l in listeners;
    listeners := listeners - {l};
  }

  /** `equals`: associators are equal when their parameter sets are. */
  predicate Equals(that: ImagePointAssociator)
    reads parameters, that.parameters, parameters.controllers.Objects()
    reads that.parameters.controllers.Objects()
    ensures this == that ==> Equals(that)
  {
    parameters.Equals(that.parameters)
  }

  /** `hashCode`: the parameter set's hash. */
  function HashCode(h: Hashes): (r: int)
    requires parameters.Configured()
    reads parameters, parameters.controllers.Bases(), parameters.controllers.Objects()
    ensures IsInt32(r)
  {
    parameters.HashCode(h)
  }
}

/** Each of `done` received exactly one notice, carrying `m`, and no one else received any. */
ghost predicate DeliveredOnce(notices: seq<Notice>, done: set<object>, m: Message)
{
  (forall k :: 0 <= k < |notices| ==> notices[k].to in done && notices[k].message == m) &&
  (forall i, j :: 0 <= i < j < |notices| ==> notices[i].to != notices[j].to) &&
  Recipients(notices) == done
}

/** Telling one more listener, not yet told, extends the delivered set by it. */
lemma DeliveredOnceSnoc(notices: seq<Notice>, done: set<object>, m: Message, n: Notice)
  requires DeliveredOnce(notices, done, m)
  requires n.to !in done && n.message == m
  ensures DeliveredOnce(notices + [n], done + {n.to}, m)
{
  RecipientsSnoc(notices, n);
  assert forall k :: 0 <= k < |notices| ==> notices[k].to in Recipients(notices);
}

/** Equal associators have equal hash codes. */
lemma EqualAssociatorsHashEqually(a: ImagePointAssociator, b: ImagePointAssociator, h: Hashes)
  requires a.parameters.Configured() && b.parameters.Configured() && a.Equals(b)
  ensures a.HashCode(h) == b.HashCode(h)
{
  EqualParamsHashEqually(a.parameters, b.parameters, h);
}
