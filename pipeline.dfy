/*
 * The feature-detection and homography pipeline.
 *
 * Controllers, parameter sets, the image-point associator and the homography calculator
 * hold references to one another through their listener slots, so they form one module:
 * the default module, spread over one file per source class. This file holds the imports
 * that module uses and the vocabulary its objects share.
 *
 * A listener callback is a direct method call. Every method that can notify returns, as a
 * ghost out-parameter, the notices it delivered: a tree in which each notice records its
 * recipient, its message (the source's callback arguments) and the notices the recipient
 * delivered in turn while handling it. Flattening the tree gives the order of the calls.
 */

import opened Wrappers
import opened Configurations
import opened Foreign
import opened JavaInt
import opened ListOps
import opened DetectionResults

/** The arguments of one listener callback of the source. */
datatype Message =
    /** `OnConfigurationChangedListener.onConfigurationChanged(newVal, oldVal, type)` */
  | ConfigurationChanged(newConfig: Option<Configuration>, oldConfig: Option<Configuration>,
                         kind: ConfigurationType)
    /** `OnFeatureDetectionParamsChangedListener.onDetDescChanged(newVal, oldVal)` */
  | DetDescChanged(newDetDesc: DetectDescribe, oldDetDesc: DetectDescribe?)
    /** `OnFeatureDetectionParamsChangedListener.onDescriptorAssociaterChanged(newVal, oldVal)` */
  | AssociaterChanged(newAssociater: Associater, oldAssociater: Associater?)
    /** `ImagePointAssociator.UpdateListener.onMatchesUpdate(newVal, oldVal)` */
  | MatchesUpdated(newMatches: seq<AssociatedPair>, oldMatches: Option<seq<AssociatedPair>>)
    /** `OnHomographyParametersChangedListener.onHomographyComputerChanged(newVal, oldVal)` */
  | ComputerChanged(newComputer: HomographyComputer, oldComputer: HomographyComputer?)
    /** `OnHomographyParametersChangedListener.onModelMatcherChanged(newVal, oldVal)` */
  | MatcherChanged(newMatcher: ModelMatcher, oldMatcher: ModelMatcher?)
    /** `HomographyCalculator.OnHomographyChangedListener.onHomographyChanged(newVal, oldVal)` */
  | HomographyChanged(newHomography: Matrix, oldHomography: Option<Matrix>)

/** One delivered callback and the callbacks its recipient made while handling it. */
datatype Notice = Notice(to: object, message: Message, reaction: seq<Notice>)

/** No notice without a listener; otherwise exactly one, to `listener`, carrying `m`. */
ghost predicate Announced(notices: seq<Notice>, listener: object?, m: Message)
{
  if listener == null then notices == []
  else |notices| == 1 && notices[0].to == listener && notices[0].message == m
}

/** The objects the notices were delivered to. */
ghost function Recipients(notices: seq<Notice>): set<object>
{
  set n | n in notices :: n.to
}

/** One more notice adds its recipient. */
lemma RecipientsSnoc(notices: seq<Notice>, n: Notice)
  ensures Recipients(notices + [n]) == Recipients(notices) + {n.to}
{
  assert forall x | x in notices + [n] :: x in notices || x == n;
}

/**
 * The JVM hash codes the source's `hashCode` methods combine: `Float.floatToIntBits` (with
 * its guard for +0.0f), the folded `Double.doubleToLongBits`, the fold of a `long`, the
 * identity hashes of enum constants, and the hash of a BoofCV configuration object.
 */
datatype Hashes = Hashes(
  ofFloat: real -> int,
  ofDouble: real -> int,
  ofLong: int -> int,
  ofScorer: Scorer -> int,
  ofErrorMetric: ErrorMetric -> int,
  ofConfiguration: Configuration -> int)
