/**
 * `HomographyCalculator.OnHomographyChangedListener`: a client told about each new
 * homography. What a client does with the notice is not part of this model.
 */
class HomographyListener {
  constructor ()
  {
  }
}

/**
 * `HomographyCalculator`: listens to an image-point associator for matches, keeps the
 * RANSAC inliers among them and the homography estimated from those, and tells its own
 * listeners, in the order they were added, about every new homography.
 */
class HomographyCalculator {
  /** `parameters`: the homography settings, which report to this calculator. */
  const parameters: HomographyParams
  /** The foreign RANSAC and estimator runs. */
  const lib: Library

  var imageAssociator: ImagePointAssociator?
  var referenceImage: Option<BufferedImage>
  var otherImage: Option<BufferedImage>
  var inliers: Option<seq<AssociatedPair>>
  var homography: Option<Matrix>
  /** `listeners`: an `ArrayList`, so order and duplicates are kept. */
  var listeners: seq<HomographyListener>

  /** The objects a notice to this calculator may change. */
  ghost function Footprint(): set<object>
  {
    {this, parameters}
  }

  /** The associator, the images and the listener list are as they were. */
  twostate predicate SameWiring()
    reads this
  {
    imageAssociator == old(imageAssociator) && referenceImage == old(referenceImage) &&
    otherImage == old(otherImage) && listeners == old(listeners)
  }

  /** One notice per listener, in list order, each carrying `m`. */
  static ghost predicate Broadcast(notices: seq<Notice>, listeners: seq<HomographyListener>,
                                   m: Message)
  {
    |notices| == |listeners| &&
    forall k :: 0 <= k < |notices| ==> notices[k] == Notice(listeners[k], m, [])
  }

  /** `new HomographyCalculator(parameters)` once the argument is known to be present. */
  constructor (parameters: HomographyParams, lib: Library)
    modifies parameters
    ensures this.parameters == parameters && this.lib == lib
    ensures imageAssociator == null && referenceImage.None? && otherImage.None?
    ensures inliers.None? && homography.None? && listeners == []
    ensures parameters.listener == this && parameters.Settings() == old(parameters.Settings())
    ensures parameters.modelMatcher == old(parameters.modelMatcher)
    ensures parameters.homographyComputer == old(parameters.homographyComputer)
  {
    this.parameters := parameters;
    this.lib := lib;
    imageAssociator := null;
    referenceImage := None;
    otherImage := None;
    inliers := None;
    homography := None;
    listeners := [];
    new;
    parameters.SetListener(this);
  }

  /**
   * `new HomographyCalculator(parameters)`: null parameters are refused with
   * `NullPointerException`; otherwise the parameters report to the new calculator.
   */
  static method Create(parameters: HomographyParams?, lib: Library)
    returns (r: Result<HomographyCalculator>)
    modifies parameters
    ensures parameters == null ==> r == Failure(NullPointerException)
    ensures parameters != null ==>
      r.Success? && fresh(r.value) && r.value.parameters == parameters &&
      r.value.imageAssociator == null && r.value.listeners == [] &&
      r.value.inliers.None? && r.value.homography.None? &&
      parameters.listener == r.value && parameters.Settings() == old(parameters.Settings())
  {
    if parameters == null {
      return Failure(NullPointerException);
    }
    var c := new HomographyCalculator(parameters, lib);
    r := Success(c);
  }

  /** `addListener`: null is ignored; otherwise appended to the list. */
  method AddListener(l: HomographyListener?)
    modifies this
    ensures listeners == if l == null then old(listeners) else old(listeners) + [l]
    ensures imageAssociator == old(imageAssociator) && inliers == old(inliers)
    ensures homography == old(homography)
    ensures referenceImage == old(referenceImage) && otherImage == old(otherImage)
  {
    if l != null {
      listeners := listeners + [l];
    }
  }

  /** `removeListener`: drops the first occurrence and reports whether there was one. */
  method RemoveListener(l: HomographyListener?) returns (removed: bool)
    modifies this
    ensures removed <==> l != null && l in old(listeners)
    ensures listeners == if l == null then old(listeners) else RemoveFirst<HomographyListener>(old(listeners), l)
    ensures imageAssociator == old(imageAssociator) && inliers == old(inliers)
    ensures homography == old(homography)
    ensures referenceImage == old(referenceImage) && otherImage == old(otherImage)
  {
    if l == null {
      return false;
    }
    removed := l in listeners;
    listeners := RemoveFirst<HomographyListener>(listeners, l);
  }

  /**
   * `setImageAssociator`: null is ignored. Otherwise this calculator stops listening to the
   * associator it had, listens to the new one, and passes it the images it already has
   * (reference first); an exception from the first hand-over skips the second.
   */
  method SetImageAssociator(ipa: ImagePointAssociator?)
    returns (r: Outcome, ghost notices: seq<Notice>,
             ghost referenceOutcome: Outcome, ghost referenceNotices: seq<Notice>)
    modifies this, parameters, if imageAssociator == null then {} else {imageAssociator}
    modifies if ipa == null then {} else ipa.Footprint()
    ensures ipa == null ==> r == Pass && notices == [] && unchanged(this)
    ensures ipa != null ==>
      imageAssociator == ipa && this in ipa.listeners &&
      listeners == old(listeners) && referenceImage == old(referenceImage) &&
      otherImage == old(otherImage) &&
      (r == Pass || r == Fail(IllegalStateException))
    ensures ipa != null && old(imageAssociator) != null && old(imageAssociator) != ipa ==>
      this !in old(imageAssociator).listeners
    // the reference hand-over comes first and its notices open the sequence
    ensures referenceNotices <= notices
    ensures ipa != null ==>
      forall n | n in notices :: n.to in ipa.listeners && n.message.MatchesUpdated?
    ensures ipa == null || referenceImage.None? || old(ipa.referenceImage) == referenceImage ==>
      referenceOutcome == Pass && referenceNotices == []
    ensures ipa != null && referenceImage.Some? ==> ipa.referenceImage == referenceImage
    // an exception from the reference hand-over skips the other one
    ensures ipa != null && referenceOutcome.Fail? ==>
      r == referenceOutcome && notices == referenceNotices &&
      ipa.otherImage == old(ipa.otherImage)
    ensures ipa != null && referenceOutcome == Pass && otherImage.Some? ==>
      ipa.otherImage == otherImage
    ensures ipa != null && referenceOutcome == Pass &&
            (otherImage.None? || old(ipa.otherImage) == otherImage) ==>
      r == Pass && notices == referenceNotices
  {
    referenceOutcome, referenceNotices := Pass, [];
    if ipa == null { return Pass, [], referenceOutcome, referenceNotices; }
    if imageAssociator != null { var _ := imageAssociator.RemoveListener(this); }
    imageAssociator := ipa;
    ipa.AddListener(this);
    r, notices, referenceOutcome, referenceNotices := HandImagesTo(ipa);
  }

  /** The second half of `setImageAssociator`: the images this calculator has, reference first. */
  method HandImagesTo(ipa: ImagePointAssociator)
    returns (r: Outcome, ghost notices: seq<Notice>,
             ghost referenceOutcome: Outcome, ghost referenceNotices: seq<Notice>)
    requires imageAssociator == ipa && this in ipa.listeners
    modifies ipa.Footprint()
    ensures SameWiring() && ipa.listeners == old(ipa.listeners)
    ensures r == Pass || r == Fail(IllegalStateException)
    ensures referenceNotices <= notices
    ensures forall n | n in notices :: n.to in ipa.listeners && n.message.MatchesUpdated?
    ensures referenceImage.None? || old(ipa.referenceImage) == referenceImage ==>
      referenceOutcome == Pass && referenceNotices == []
    ensures referenceImage.Some? ==> ipa.referenceImage == referenceImage
    ensures referenceOutcome.Fail? ==>
      r == referenceOutcome && notices == referenceNotices &&
      ipa.otherImage == old(ipa.otherImage)
    ensures referenceOutcome == Pass && otherImage.Some? ==> ipa.otherImage == otherImage
    ensures referenceOutcome == Pass && (otherImage.None? || old(ipa.otherImage) == otherImage) ==>
      r == Pass && notices == referenceNotices
    // what the hand-overs did to the associator's matches
    ensures referenceImage.Some? && old(ipa.referenceImage) != referenceImage &&
            (referenceOutcome.Fail? || otherImage.None? || old(ipa.otherImage) == otherImage) ==>
      ipa.Reassociated(referenceOutcome, referenceNotices)
    ensures referenceOutcome == Pass && otherImage.Some? && old(ipa.otherImage) != otherImage ==>
      ipa.MatchesCurrent()
  {
    r, notices := Pass, [];
    referenceOutcome, referenceNotices := Pass, [];
    if referenceImage.Some? {
      r, notices := ipa.SetReferenceImage(referenceImage);
      referenceOutcome, referenceNotices := r, notices;
      if r.Fail? { return; }
    }
    if otherImage.Some? {
      ghost var more;
      r, more := ipa.SetOtherImage(otherImage);
      notices := notices + more;
    }
  }



  /**
   * `setReferenceImage`: null is refused with `NullPointerException`; the current image
   * changes nothing; otherwise it is kept and passed to the associator, if there is one.
   */
  method SetReferenceImage(image: Option<BufferedImage>) returns (r: Outcome, ghost notices: seq<Notice>)
    modifies this, if imageAssociator == null then {} else imageAssociator.Footprint()
    ensures image.None? ==> r == Fail(NullPointerException) && notices == [] && unchanged(this)
    ensures image.Some? && image == old(referenceImage) ==> r == Pass && notices == [] && unchanged(this)
    ensures image.Some? ==>
      referenceImage == image && otherImage == old(otherImage) &&
      imageAssociator == old(imageAssociator) && listeners == old(listeners)
    ensures image.Some? && image != old(referenceImage) ==>
      (r == Pass || r == Fail(IllegalStateException)) &&
      (imageAssociator == null ==> r == Pass && notices == []) &&
      (imageAssociator != null ==>
         imageAssociator.referenceImage == image &&
         (forall n | n in notices :: n.to in imageAssociator.listeners && n.message.MatchesUpdated?) &&
         (image == old(imageAssociator.referenceImage) ==> r == Pass && notices == []) &&
         (image != old(imageAssociator.referenceImage) ==> imageAssociator.Reassociated(r, notices)))
  {
    if image.None? {
      return Fail(NullPointerException), [];
    }
    if image == referenceImage {
      return Pass, [];
    }
    referenceImage := image;
    r, notices := Pass, [];
    if imageAssociator != null {
      r, notices := imageAssociator.SetReferenceImage(referenceImage);
    }
  }

  /**
   * `setOtherImage`: null is refused with `NullPointerException`; the current image changes
   * nothing; otherwise it is kept and passed to the associator, if there is one.
   */
  method SetOtherImage(image: Option<BufferedImage>) returns (r: Outcome, ghost notices: seq<Notice>)
    modifies this, if imageAssociator == null then {} else imageAssociator.Footprint()
    ensures image.None? ==> r == Fail(NullPointerException) && notices == [] && unchanged(this)
    ensures image.Some? && image == old(otherImage) ==> r == Pass && notices == [] && unchanged(this)
    ensures image.Some? ==>
      otherImage == image && referenceImage == old(referenceImage) &&
      imageAssociator == old(imageAssociator) && listeners == old(listeners)
    ensures image.Some? && image != old(otherImage) ==>
      (r == Pass || r == Fail(IllegalStateException)) &&
      (imageAssociator == null ==> r == Pass && notices == []) &&
      (imageAssociator != null ==>
         imageAssociator.otherImage == image &&
         (forall n | n in notices :: n.to in imageAssociator.listeners && n.message.MatchesUpdated?) &&
         (image == old(imageAssociator.otherImage) ==> r == Pass && notices == []) &&
         (image != old(imageAssociator.otherImage) ==> imageAssociator.Reassociated(r, notices)))
  {
    if image.None? {
      return Fail(NullPointerException), [];
    }
    if image == otherImage {
      return Pass, [];
    }
    otherImage := image;
    r, notices := Pass, [];
    if imageAssociator != null {
      r, notices := imageAssociator.SetOtherImage(otherImage);
    }
  }

  /**
   * `computeInliers`: null matches are refused with `NullPointerException`; no matches give
   * no inliers; otherwise RANSAC runs with the parameters' matcher, and the inliers it finds
   * (drawn from the matches) are kept.
   */
  method ComputeInliers(matches: Option<seq<AssociatedPair>>)
    returns (r: Result<Option<seq<AssociatedPair>>>)
    modifies this, parameters
    ensures SameWiring() && homography == old(homography) && parameters.CachesOnlyFilled()
    ensures matches.None? ==> r == Failure(NullPointerException) && unchanged(this, parameters)
    ensures matches == Some([]) ==> r == Success(None) && unchanged(this, parameters)
    ensures matches.Some? && matches.value != [] ==>
      r.Success? && parameters.MatcherReady() &&
      r.value == lib.ransac(parameters.modelMatcher.Setup(), matches.value) &&
      inliers == (if r.value.Some? then r.value else old(inliers))
    ensures r.Success? && r.value.Some? ==> forall x :: x in r.value.value ==> x in matches.value
  {
    if matches.None? {
      return Failure(NullPointerException);
    }
    if matches.value == [] {
      return Success(None);
    }
    var m := parameters.GetModelMatcher();
    var found := lib.ransac(m.Setup(), matches.value);
    if found.Some? {
      inliers := found;
    }
    r := Success(found);
  }

  /**
   * `computeHomography`: no inliers at all is an `IllegalStateException`; fewer than four
   * give no homography; otherwise the estimator's result replaces the homography and every
   * listener, in list order, is told (new, old).
   */
  method ComputeHomography(found: Option<seq<AssociatedPair>>)
    returns (r: Result<Option<Matrix>>, ghost notices: seq<Notice>)
    modifies this, parameters
    ensures SameWiring() && inliers == old(inliers) && parameters.CachesOnlyFilled()
    ensures parameters.modelMatcher == old(parameters.modelMatcher)
    ensures found.None? ==>
      r == Failure(IllegalStateException) && notices == [] && unchanged(this, parameters)
    ensures found.Some? && |found.value| < 4 ==>
      r == Success(None) && notices == [] && unchanged(this, parameters)
    ensures found.Some? && |found.value| >= 4 ==>
      parameters.ComputerReady() &&
      homography == Some(lib.solve(parameters.homographyComputer.normalize, found.value).h) &&
      r == Success(homography) &&
      Broadcast(notices, listeners, HomographyChanged(homography.value, old(homography)))
  {
    if found.None? {
      return Failure(IllegalStateException), [];
    }
    if |found.value| < 4 {
      return Success(None), [];
    }
    var c := parameters.GetHomographyComputer();
    var oldVal := homography;
    homography := Some(lib.solve(c.normalize, found.value).h);
    var m := HomographyChanged(homography.value, oldVal);
    notices := [];
    var i := 0;
    while i < |listeners|
      invariant 0 <= i <= |listeners|
      invariant Broadcast(notices, listeners[..i], m)
    {
      notices := notices + [Notice(listeners[i], m, [])];
      i := i + 1;
    }
    assert listeners[..i] == listeners;
    r := Success(homography);
  }

  /**
   * `computeHomography(computeInliers(ms))` on non-empty matches: RANSAC's failure is an
   * `IllegalStateException`; inliers it finds are kept, and four or more of them give a new
   * homography, announced to every listener.
   */
  twostate predicate Estimated(ms: seq<AssociatedPair>, r: Outcome, new notices: seq<Notice>)
    reads this, parameters
  {
    SameWiring() && parameters.CachesOnlyFilled() && parameters.modelMatcher != null &&
    var found := lib.ransac(parameters.modelMatcher.Setup(), ms);
    if found.None? then
      r == Fail(IllegalStateException) && notices == [] &&
      inliers == old(inliers) && homography == old(homography)
    else
      r == Pass && inliers == found &&
      if |found.value| < 4 then notices == [] && homography == old(homography)
      else
        parameters.homographyComputer != null &&
        homography == Some(lib.solve(parameters.homographyComputer.normalize, found.value).h) &&
        Broadcast(notices, listeners, HomographyChanged(homography.value, old(homography)))
  }

  /**
   * `onMatchesUpdate`: null matches are an `IllegalStateException`, and so are empty ones,
   * whose missing inliers `computeHomography` refuses; otherwise the inliers and the
   * homography are recomputed.
   */
  method OnMatchesUpdate(matches: Option<seq<AssociatedPair>>,
                         oldMatches: Option<seq<AssociatedPair>>)
    returns (r: Outcome, ghost notices: seq<Notice>)
    modifies Footprint()
    ensures SameWiring() && parameters.CachesOnlyFilled()
    ensures r == Pass || r == Fail(IllegalStateException)
    ensures matches.None? || matches == Some([]) ==>
      r == Fail(IllegalStateException) && notices == [] && unchanged(this, parameters)
    ensures matches.Some? && matches.value != [] ==> Estimated(matches.value, r, notices)
  {
    if matches.None? {
      return Fail(IllegalStateException), [];
    }
    var found := ComputeInliers(matches);
    var h;
    h, notices := ComputeHomography(found.value);
    r := if h.Success? then Pass else Fail(h.error);
  }

  /**
   * `onModelMatcherChanged`: without an associator holding matches nothing happens;
   * otherwise the inliers and the homography are recomputed from its matches.
   */
  method OnModelMatcherChanged(newVal: ModelMatcher, oldVal: ModelMatcher?)
    returns (r: Outcome, ghost notices: seq<Notice>)
    modifies Footprint()
    ensures SameWiring() && parameters.CachesOnlyFilled()
    ensures r == Pass || r == Fail(IllegalStateException)
    ensures imageAssociator == null || imageAssociator.matches.None? ||
            imageAssociator.matches == Some([]) ==>
      r == Pass && notices == [] && unchanged(this, parameters)
    ensures imageAssociator != null && imageAssociator.matches.Some? &&
            imageAssociator.matches.value != [] ==>
      Estimated(imageAssociator.matches.value, r, notices)
  {
    if imageAssociator == null {
      return Pass, [];
    }
    var ms := imageAssociator.matches;
    if ms.None? || ms.value == [] {
      return Pass, [];
    }
    var found := ComputeInliers(ms);
    var h;
    h, notices := ComputeHomography(found.value);
    r := if h.Success? then Pass else Fail(h.error);
  }

  /**
   * `onHomographyComputerChanged`: with kept inliers, the homography is recomputed from
   * them (four or more give a new one, announced to every listener).
   */
  method OnHomographyComputerChanged(newVal: HomographyComputer, oldVal: HomographyComputer?)
    returns (r: Outcome, ghost notices: seq<Notice>)
    modifies Footprint()
    ensures SameWiring() && inliers == old(inliers) && parameters.CachesOnlyFilled()
    ensures parameters.modelMatcher == old(parameters.modelMatcher)
    ensures r == Pass
    ensures inliers.None? || |inliers.value| < 4 ==>
      notices == [] && unchanged(this, parameters)
    ensures inliers.Some? && |inliers.value| >= 4 ==>
      parameters.ComputerReady() &&
      homography == Some(lib.solve(parameters.homographyComputer.normalize, inliers.value).h) &&
      Broadcast(notices, listeners, HomographyChanged(homography.value, old(homography)))
  {
    if inliers.None? || inliers.value == [] {
      return Pass, [];
    }
    var h;
    h, notices := ComputeHomography(inliers);
    r := Pass;
  }
}
