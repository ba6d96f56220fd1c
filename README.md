# Appliance reader: parameter pipeline, matching and storage core

This project models the library core of the Appliance Reader desktop program in Dafny. The
program finds an appliance's control panel in a camera image. It matches features against a
reference image of the appliance, then estimates the homography between the two images.

The model covers these parts of the library:

- **Parameter controllers.** `BaseController` and its nine subclasses hold the settings of one
  BoofCV configuration each: fast Hessian, the two SURF describers, the two orientation
  integrals, and the SIFT scale space, detector, orientation and describer.
  - Every setter except those of `AverageIntegralController` ignores the value it already
    holds. Otherwise, and always in `AverageIntegralController`, it stores the value and runs
    `update()`.
  - `update()` has the external library validate the configuration the fields describe.
  - A configuration the library refuses is a `ConfigException`. The field keeps the new value,
    so the configuration the fields describe is the new one, while the installed configuration
    stays the old one and nothing is announced.
  - An accepted configuration is installed and announced to the listening parameter set.
- **Feature-detection parameters.** `FeatureDetectionParams` and its subclasses `SiftParams`,
  `FastSurfParams` and `StableSurfParams` listen to their controllers.
  - They keep five association settings.
  - They build the detector and the greedy associator lazily, and rebuild and announce them to
    their listener whenever something changes.
  - `checkRep` (a positive maximum distance and feature count) is preserved by every setter.
- **Homography parameters.** `HomographyParams` holds the RANSAC and estimator settings and
  builds the estimator and the matcher on first use.
  - A setting's change is announced.
  - The cached estimator and matcher are never rebuilt. This is the code as written.
- **Image-point associator.** `ImagePointAssociator` describes a reference image and another
  image with the current detector, and matches them with the current associator.
  - It pairs the matched points.
  - It tells each of its listeners, held in a set, once per new match list.
- **Homography calculator.** `HomographyCalculator` listens to the associator and keeps the
  RANSAC inliers of each new match list.
  - From four or more inliers it estimates a homography.
  - It tells its listeners about it, in the order they were added.
- **Detection results.** `DetectionResultArgument` is a value type: the interest points and
  descriptors found in one image.
- **Data and storage.**
  - `ApplianceType`: the case-insensitive lookup of appliance kinds by name.
  - `Appliance`: make, model, kind, nickname and reference image path.
  - `RectangularBoundary`: its `equals` and `hashCode`.
  - `ApplianceDirectory`: the directory named `make_model` under a parent directory.
  - `ApplianceDirectoryFactory`: the registry of factories per main directory and each
    factory's cache of appliance directories.

Modelling choices:

- **Controllers, parameter sets, associator and calculator are classes.** Their fields change
  in place.
  - Each controller owns its `BaseController` state as an object (`base`).
  - The three parameter-set subclasses are one class, whose `controllers` datatype says which
    subclass it is.
  - The listener slots are nullable fields, and a listener call is a method call.
- **Notices are ghost values.** What a method tells its listeners is returned as a ghost
  sequence of notices: the recipient, the message and the recipient's own reaction. The
  contracts state who is told what and in which order.
- **Exceptions are values.** A thrown exception is an `Outcome` or `Result` value naming the
  exception.
- **Foreign code is a parameter.** BoofCV, the image conversion and the file system are
  supplied as functions:
  - validation of a configuration;
  - image conversion;
  - feature detection;
  - greedy association;
  - RANSAC;
  - linear homography estimation;
  - directory tests.
  What they compute is not modelled, only the properties the core relies on:
  - association indices address the descriptor lists;
  - RANSAC's inliers come from its input.
- **Hashes use Java `int` arithmetic.** Every `hashCode` wraps modulo 2^32, as Java does (module
  `JavaInt`). The hashes of the field values are parameters (`Hashes`), because they come from
  classes outside the core.
- **Files.** The files follow the source: one file per class, plus `pipeline.dfy` (shared
  notices and imports), `configurations.dfy`, `foreign.dfy`, `java_int.dfy`, `list_ops.dfy`
  and `wrappers.dfy`.

Where the code and its documentation disagree, the model follows the code:

- **`FastHessianController.setInitialSampleSize`** checks the new value against
  `initialSize`, not against the field it assigns. So the setter is skipped when the value
  equals the initial size, and runs when the value equals the current sample size.
- **`ApplianceDirectoryFactory.getFactory`** calls `equals` on each registered factory's main
  directory. So once a factory with a null main directory is registered, every request for a
  directory not registered before it throws `NullPointerException`
  (`NullMainDirBlocksLaterSearches`).
- **`getDirName`** joins make and model with `_`. So two appliances can share a directory
  (`DirNameCollision`). Names are unique when makes contain no underscore (`DirNameInjective`).
- **`setNickName`** assigns the field to itself. This is a finding (below): the rest of the
  model uses the intended setter.

## Model

| member | source | states |
|---|---|---|
| BaseController.constructor | library/src/main/java/uw/cse/mag/appliancereader/lib/cv/params/core/BaseController.java:38-41 | a new controller base is defaulted, has no configuration yet and reports to the given listener |
| BaseController.Update | library/src/main/java/uw/cse/mag/appliancereader/lib/cv/params/core/BaseController.java:52-66 | a configuration the library refuses leaves everything as it was and gives `ConfigException`; an accepted one is installed and announced once to the listener as (null when defaulted, else the new one; the old one; the type) |
| BaseController.SetDefaulted | library/src/main/java/uw/cse/mag/appliancereader/lib/cv/params/core/BaseController.java:73-82 | the same flag changes nothing; a new flag is stored and `update()` runs, a `ConfigException` from it being swallowed |
| BaseController.SetListener | library/src/main/java/uw/cse/mag/appliancereader/lib/cv/params/core/BaseController.java:89-91 | the listener is replaced and the flag and configuration are kept |
| BaseController.Equals | library/src/main/java/uw/cse/mag/appliancereader/lib/cv/params/core/BaseController.java:127-134 | every controller is `equals` to itself, the identity shortcut; only the defaulted flag and the installed configuration are read |
| BaseController.HashCode | library/src/main/java/uw/cse/mag/appliancereader/lib/cv/params/core/BaseController.java:137-141 | the hash of the defaulted flag and the installed configuration, combined with the factor 31, is a Java `int` |
| EqualBaseControllersHashEqually | library/src/main/java/uw/cse/mag/appliancereader/lib/cv/params/core/BaseController.java:127-141 | base controllers that are `equals` have the same `hashCode` |
| FastHessianController.Init | library/src/main/java/uw/cse/mag/appliancereader/lib/cv/params/surf/FastHessianController.java:42-50 | the base starts defaulted with no configuration and the given listener, and the fields hold the documented defaults |
| FastHessianController.Create | library/src/main/java/uw/cse/mag/appliancereader/lib/cv/params/surf/FastHessianController.java:42-56 | the defaults pass through `update()`: installed and announced to the listener as (null, null, kind); refused defaults, or a listener failure, surface as `IllegalStateException` |
| FastHessianController.Update | library/src/main/java/uw/cse/mag/appliancereader/lib/cv/params/surf/FastHessianController.java:185-188 | `update()` validates the configuration the fields describe: refused, it leaves the installed one and the listener untouched with `ConfigException`; accepted, it is installed and announced once |
| FastHessianController.SetDefaulted | library/src/main/java/uw/cse/mag/appliancereader/lib/cv/params/core/BaseController.java:73-82 | a repeated value changes nothing; a new one flips the flag and re-runs `update()`, swallowing its `ConfigException` |
| FastHessianController.SetDetectThreshold | library/src/main/java/uw/cse/mag/appliancereader/lib/cv/params/surf/FastHessianController.java:69-73 | an equal value changes nothing and announces nothing; otherwise the configuration changes in this field only and `update()` runs: refused with `ConfigException` and nothing downstream changes, or installed and announced once |
| FastHessianController.SetExtractRadius | library/src/main/java/uw/cse/mag/appliancereader/lib/cv/params/surf/FastHessianController.java:82-86 | an equal value changes nothing and announces nothing; otherwise the configuration changes in this field only and `update()` runs: refused with `ConfigException` and nothing downstream changes, or installed and announced once |
| FastHessianController.SetInitialSampleSize | library/src/main/java/uw/cse/mag/appliancereader/lib/cv/params/surf/FastHessianController.java:95-99 | as written: a value equal to `initialSize` changes nothing; any other value is stored in `initialSampleSize` and `update()` runs |
| FastHessianController.SetInitialSize | library/src/main/java/uw/cse/mag/appliancereader/lib/cv/params/surf/FastHessianController.java:107-111 | an equal value changes nothing and announces nothing; otherwise the configuration changes in this field only and `update()` runs: refused with `ConfigException` and nothing downstream changes, or installed and announced once |
| FastHessianController.SetMaxFeaturePerScale | library/src/main/java/uw/cse/mag/appliancereader/lib/cv/params/surf/FastHessianController.java:121-125 | an equal value changes nothing and announces nothing; otherwise the configuration changes in this field only and `update()` runs: refused with `ConfigException` and nothing downstream changes, or installed and announced once |
| FastHessianController.SetNumberOfOctaves | library/src/main/java/uw/cse/mag/appliancereader/lib/cv/params/surf/FastHessianController.java:133-137 | an equal value changes nothing and announces nothing; otherwise the configuration changes in this field only and `update()` runs: refused with `ConfigException` and nothing downstream changes, or installed and announced once |
| FastHessianController.SetNumberScalesPerOctave | library/src/main/java/uw/cse/mag/appliancereader/lib/cv/params/surf/FastHessianController.java:145-149 | an equal value changes nothing and announces nothing; otherwise the configuration changes in this field only and `update()` runs: refused with `ConfigException` and nothing downstream changes, or installed and announced once |
| FastHessianController.Equals | library/src/main/java/uw/cse/mag/appliancereader/lib/cv/params/surf/FastHessianController.java:200-216 | `equals` holds exactly when the inherited state and the configurations the fields describe are equal |
| FastHessianController.HashCode | library/src/main/java/uw/cse/mag/appliancereader/lib/cv/params/surf/FastHessianController.java:219-229 | the hash of the inherited state and the fields, combined with the factor 31, is a Java `int` |
| EqualFastHessianControllersHashEqually | library/src/main/java/uw/cse/mag/appliancereader/lib/cv/params/surf/FastHessianController.java:200-229 | controllers that are `equals` have the same `hashCode` |
| SlidingIntegralController.Init | library/src/main/java/uw/cse/mag/appliancereader/lib/cv/params/surf/SlidingIntegralController.java:33-39 | the base starts defaulted with no configuration and the given listener, and the fields hold the documented defaults |
| SlidingIntegralController.Create | library/src/main/java/uw/cse/mag/appliancereader/lib/cv/params/surf/SlidingIntegralController.java:33-45 | the defaults pass through `update()`: installed and announced to the listener as (null, null, kind); refused defaults, or a listener failure, surface as `IllegalStateException` |
| SlidingIntegralController.Update | library/src/main/java/uw/cse/mag/appliancereader/lib/cv/params/surf/SlidingIntegralController.java:144-146 | `update()` validates the configuration the fields describe: refused, it leaves the installed one and the listener untouched with `ConfigException`; accepted, it is installed and announced once |
| SlidingIntegralController.SetDefaulted | library/src/main/java/uw/cse/mag/appliancereader/lib/cv/params/core/BaseController.java:73-82 | a repeated value changes nothing; a new one flips the flag and re-runs `update()`, swallowing its `ConfigException` |
| SlidingIntegralController.SetRadius | library/src/main/java/uw/cse/mag/appliancereader/lib/cv/params/surf/SlidingIntegralController.java:58-62 | an equal value changes nothing and announces nothing; otherwise the configuration changes in this field only and `update()` runs: refused with `ConfigException` and nothing downstream changes, or installed and announced once |
| SlidingIntegralController.SetSampleWidth | library/src/main/java/uw/cse/mag/appliancereader/lib/cv/params/surf/SlidingIntegralController.java:71-75 | an equal value changes nothing and announces nothing; otherwise the configuration changes in this field only and `update()` runs: refused with `ConfigException` and nothing downstream changes, or installed and announced once |
| SlidingIntegralController.SetSamplePeriod | library/src/main/java/uw/cse/mag/appliancereader/lib/cv/params/surf/SlidingIntegralController.java:84-88 | an equal value changes nothing and announces nothing; otherwise the configuration changes in this field only and `update()` runs: refused with `ConfigException` and nothing downstream changes, or installed and announced once |
| SlidingIntegralController.SetWindowSize | library/src/main/java/uw/cse/mag/appliancereader/lib/cv/params/surf/SlidingIntegralController.java:97-101 | an equal value changes nothing and announces nothing; otherwise the configuration changes in this field only and `update()` runs: refused with `ConfigException` and nothing downstream changes, or installed and announced once |
| SlidingIntegralController.SetWeightSigma | library/src/main/java/uw/cse/mag/appliancereader/lib/cv/params/surf/SlidingIntegralController.java:111-115 | an equal value changes nothing and announces nothing; otherwise the configuration changes in this field only and `update()` runs: refused with `ConfigException` and nothing downstream changes, or installed and announced once |
| SlidingIntegralController.Equals | library/src/main/java/uw/cse/mag/appliancereader/lib/cv/params/surf/SlidingIntegralController.java:158-172 | `equals` holds exactly when the inherited state and the configurations the fields describe are equal |
| SlidingIntegralController.HashCode | library/src/main/java/uw/cse/mag/appliancereader/lib/cv/params/surf/SlidingIntegralController.java:175-187 | the hash of the inherited state and the fields, combined with the factor 31, is a Java `int` |
| EqualSlidingIntegralControllersHashEqually | library/src/main/java/uw/cse/mag/appliancereader/lib/cv/params/surf/SlidingIntegralController.java:158-187 | controllers that are `equals` have the same `hashCode` |
| AverageIntegralController.Init | library/src/main/java/uw/cse/mag/appliancereader/lib/cv/params/surf/AverageIntegralController.java:30-35 | the base starts defaulted with no configuration and the given listener, and the fields hold the documented defaults |
| AverageIntegralController.Create | library/src/main/java/uw/cse/mag/appliancereader/lib/cv/params/surf/AverageIntegralController.java:30-41 | the defaults pass through `update()`: installed and announced to the listener as (null, null, kind); refused defaults, or a listener failure, surface as `IllegalStateException` |
| AverageIntegralController.Update | library/src/main/java/uw/cse/mag/appliancereader/lib/cv/params/surf/AverageIntegralController.java:113-115 | `update()` validates the configuration the fields describe: refused, it leaves the installed one and the listener untouched with `ConfigException`; accepted, it is installed and announced once |
| AverageIntegralController.SetDefaulted | library/src/main/java/uw/cse/mag/appliancereader/lib/cv/params/core/BaseController.java:73-82 | a repeated value changes nothing; a new one flips the flag and re-runs `update()`, swallowing its `ConfigException` |
| AverageIntegralController.SetRadius | library/src/main/java/uw/cse/mag/appliancereader/lib/cv/params/surf/AverageIntegralController.java:53-56 | the configuration changes in this field only, and `update()` always runs on it: refused with `ConfigException` and nothing downstream changes, or installed and announced once |
| AverageIntegralController.SetSampleWidth | library/src/main/java/uw/cse/mag/appliancereader/lib/cv/params/surf/AverageIntegralController.java:64-67 | the configuration changes in this field only, and `update()` always runs on it: refused with `ConfigException` and nothing downstream changes, or installed and announced once |
| AverageIntegralController.SetSamplePeriod | library/src/main/java/uw/cse/mag/appliancereader/lib/cv/params/surf/AverageIntegralController.java:75-78 | the configuration changes in this field only, and `update()` always runs on it: refused with `ConfigException` and nothing downstream changes, or installed and announced once |
| AverageIntegralController.SetWeightSigma | library/src/main/java/uw/cse/mag/appliancereader/lib/cv/params/surf/AverageIntegralController.java:86-89 | the configuration changes in this field only, and `update()` always runs on it: refused with `ConfigException` and nothing downstream changes, or installed and announced once |
| AverageIntegralController.Equals | library/src/main/java/uw/cse/mag/appliancereader/lib/cv/params/surf/AverageIntegralController.java:128-141 | `equals` holds exactly when the inherited state and the configurations the fields describe are equal |
| AverageIntegralController.HashCode | library/src/main/java/uw/cse/mag/appliancereader/lib/cv/params/surf/AverageIntegralController.java:144-154 | the hash of the inherited state and the fields, combined with the factor 31, is a Java `int` |
| EqualAverageIntegralControllersHashEqually | library/src/main/java/uw/cse/mag/appliancereader/lib/cv/params/surf/AverageIntegralController.java:128-154 | controllers that are `equals` have the same `hashCode` |
| SurfDescriptorSpeedController.Init | library/src/main/java/uw/cse/mag/appliancereader/lib/cv/params/surf/SurfDescriptorSpeedController.java:26-28 | the base starts defaulted with no configuration and the given listener, and the fields hold the documented defaults |
| SurfDescriptorSpeedController.Create | library/src/main/java/uw/cse/mag/appliancereader/lib/cv/params/surf/SurfDescriptorSpeedController.java:26-34 | the defaults pass through `update()`: installed and announced to the listener as (null, null, kind); refused defaults, or a listener failure, surface as `IllegalStateException` |
| SurfDescriptorSpeedController.Update | library/src/main/java/uw/cse/mag/appliancereader/lib/cv/params/surf/SurfDescriptorSpeedController.java:63-67 | `update()` validates the configuration the fields describe: refused, it leaves the installed one and the listener untouched with `ConfigException`; accepted, it is installed and announced once |
| SurfDescriptorSpeedController.SetDefaulted | library/src/main/java/uw/cse/mag/appliancereader/lib/cv/params/core/BaseController.java:73-82 | a repeated value changes nothing; a new one flips the flag and re-runs `update()`, swallowing its `ConfigException` |
| SurfDescriptorSpeedController.SetWeightSigma | library/src/main/java/uw/cse/mag/appliancereader/lib/cv/params/surf/SurfDescriptorSpeedController.java:46-50 | an equal value changes nothing and announces nothing; otherwise the configuration changes in this field only and `update()` runs: refused with `ConfigException` and nothing downstream changes, or installed and announced once |
| SurfDescriptorSpeedController.Equals | library/src/main/java/uw/cse/mag/appliancereader/lib/cv/params/surf/SurfDescriptorSpeedController.java:79-89 | `equals` holds exactly when the inherited state and the configurations the fields describe are equal |
| SurfDescriptorSpeedController.HashCode | library/src/main/java/uw/cse/mag/appliancereader/lib/cv/params/surf/SurfDescriptorSpeedController.java:92-98 | the hash of the inherited state and the fields, combined with the factor 31, is a Java `int` |
| EqualSurfDescriptorSpeedControllersHashEqually | library/src/main/java/uw/cse/mag/appliancereader/lib/cv/params/surf/SurfDescriptorSpeedController.java:79-98 | controllers that are `equals` have the same `hashCode` |
| SurfDescriptorStabilityController.Init | library/src/main/java/uw/cse/mag/appliancereader/lib/cv/params/surf/SurfDescriptorStabilityController.java:36-40 | the base starts defaulted with no configuration and the given listener, and the fields hold the documented defaults |
| SurfDescriptorStabilityController.Create | library/src/main/java/uw/cse/mag/appliancereader/lib/cv/params/surf/SurfDescriptorStabilityController.java:36-46 | the defaults pass through `update()`: installed and announced to the listener as (null, null, kind); refused defaults, or a listener failure, surface as `IllegalStateException` |
| SurfDescriptorStabilityController.Update | library/src/main/java/uw/cse/mag/appliancereader/lib/cv/params/surf/SurfDescriptorStabilityController.java:108-114 | `update()` validates the configuration the fields describe: refused, it leaves the installed one and the listener untouched with `ConfigException`; accepted, it is installed and announced once |
| SurfDescriptorStabilityController.SetDefaulted | library/src/main/java/uw/cse/mag/appliancereader/lib/cv/params/core/BaseController.java:73-82 | a repeated value changes nothing; a new one flips the flag and re-runs `update()`, swallowing its `ConfigException` |
| SurfDescriptorStabilityController.SetOverLap | library/src/main/java/uw/cse/mag/appliancereader/lib/cv/params/surf/SurfDescriptorStabilityController.java:59-63 | an equal value changes nothing and announces nothing; otherwise the configuration changes in this field only and `update()` runs: refused with `ConfigException` and nothing downstream changes, or installed and announced once |
| SurfDescriptorStabilityController.SetSigmaLargeGrid | library/src/main/java/uw/cse/mag/appliancereader/lib/cv/params/surf/SurfDescriptorStabilityController.java:72-76 | an equal value changes nothing and announces nothing; otherwise the configuration changes in this field only and `update()` runs: refused with `ConfigException` and nothing downstream changes, or installed and announced once |
| SurfDescriptorStabilityController.SetSigmaSubRegion | library/src/main/java/uw/cse/mag/appliancereader/lib/cv/params/surf/SurfDescriptorStabilityController.java:84-88 | an equal value changes nothing and announces nothing; otherwise the configuration changes in this field only and `update()` runs: refused with `ConfigException` and nothing downstream changes, or installed and announced once |
| SurfDescriptorStabilityController.Equals | library/src/main/java/uw/cse/mag/appliancereader/lib/cv/params/surf/SurfDescriptorStabilityController.java:127-137 | `equals` holds exactly when the inherited state and the configurations the fields describe are equal |
| SurfDescriptorStabilityController.HashCode | library/src/main/java/uw/cse/mag/appliancereader/lib/cv/params/surf/SurfDescriptorStabilityController.java:140-149 | the hash of the inherited state and the fields, combined with the factor 31, is a Java `int` |
| EqualSurfDescriptorStabilityControllersHashEqually | library/src/main/java/uw/cse/mag/appliancereader/lib/cv/params/surf/SurfDescriptorStabilityController.java:127-149 | controllers that are `equals` have the same `hashCode` |
| ScaleSpaceController.Init | library/src/main/java/uw/cse/mag/appliancereader/lib/cv/params/sift/ScaleSpaceController.java:48-53 | the base starts defaulted with no configuration and the given listener, and the fields hold the documented defaults |
| ScaleSpaceController.Create | library/src/main/java/uw/cse/mag/appliancereader/lib/cv/params/sift/ScaleSpaceController.java:48-59 | the defaults pass through `update()`: installed and announced to the listener as (null, null, kind); refused defaults, or a listener failure, surface as `IllegalStateException` |
| ScaleSpaceController.Update | library/src/main/java/uw/cse/mag/appliancereader/lib/cv/params/sift/ScaleSpaceController.java:136-138 | `update()` validates the configuration the fields describe: refused, it leaves the installed one and the listener untouched with `ConfigException`; accepted, it is installed and announced once |
| ScaleSpaceController.SetDefaulted | library/src/main/java/uw/cse/mag/appliancereader/lib/cv/params/core/BaseController.java:73-82 | a repeated value changes nothing; a new one flips the flag and re-runs `update()`, swallowing its `ConfigException` |
| ScaleSpaceController.SetBlurSigma | library/src/main/java/uw/cse/mag/appliancereader/lib/cv/params/sift/ScaleSpaceController.java:70-74 | an equal value changes nothing and announces nothing; otherwise the configuration changes in this field only and `update()` runs: refused with `ConfigException` and nothing downstream changes, or installed and announced once |
| ScaleSpaceController.SetDoubleInputImage | library/src/main/java/uw/cse/mag/appliancereader/lib/cv/params/sift/ScaleSpaceController.java:81-85 | an equal value changes nothing and announces nothing; otherwise the configuration changes in this field only and `update()` runs: refused with `ConfigException` and nothing downstream changes, or installed and announced once |
| ScaleSpaceController.SetNumOctaves | library/src/main/java/uw/cse/mag/appliancereader/lib/cv/params/sift/ScaleSpaceController.java:95-99 | an equal value changes nothing and announces nothing; otherwise the configuration changes in this field only and `update()` runs: refused with `ConfigException` and nothing downstream changes, or installed and announced once |
| ScaleSpaceController.SetNumScales | library/src/main/java/uw/cse/mag/appliancereader/lib/cv/params/sift/ScaleSpaceController.java:108-112 | an equal value changes nothing and announces nothing; otherwise the configuration changes in this field only and `update()` runs: refused with `ConfigException` and nothing downstream changes, or installed and announced once |
| ScaleSpaceController.Equals | library/src/main/java/uw/cse/mag/appliancereader/lib/cv/params/core/BaseController.java:127-134 | the inherited `equals`: every controller equals itself, and two are equal exactly when their defaulted flags and installed configurations agree; the controller's own fields are not read |
| ScaleSpaceController.HashCode | library/src/main/java/uw/cse/mag/appliancereader/lib/cv/params/core/BaseController.java:137-141 | the inherited hash is a Java `int` |
| EqualScaleSpaceControllersHashEqually | library/src/main/java/uw/cse/mag/appliancereader/lib/cv/params/core/BaseController.java:127-141 | controllers that are `equals` have the same `hashCode` |
| DetectorController.Init | library/src/main/java/uw/cse/mag/appliancereader/lib/cv/params/sift/DetectorController.java:49-54 | the base starts defaulted with no configuration and the given listener, and the fields hold the documented defaults |
| DetectorController.Create | library/src/main/java/uw/cse/mag/appliancereader/lib/cv/params/sift/DetectorController.java:49-60 | the defaults pass through `update()`: installed and announced to the listener as (null, null, kind); refused defaults, or a listener failure, surface as `IllegalStateException` |
| DetectorController.Update | library/src/main/java/uw/cse/mag/appliancereader/lib/cv/params/sift/DetectorController.java:141-144 | `update()` validates the configuration the fields describe: refused, it leaves the installed one and the listener untouched with `ConfigException`; accepted, it is installed and announced once |
| DetectorController.SetDefaulted | library/src/main/java/uw/cse/mag/appliancereader/lib/cv/params/core/BaseController.java:73-82 | a repeated value changes nothing; a new one flips the flag and re-runs `update()`, swallowing its `ConfigException` |
| DetectorController.SetDetectThreshold | library/src/main/java/uw/cse/mag/appliancereader/lib/cv/params/sift/DetectorController.java:73-77 | an equal value changes nothing and announces nothing; otherwise the configuration changes in this field only and `update()` runs: refused with `ConfigException` and nothing downstream changes, or installed and announced once |
| DetectorController.SetExtractRadius | library/src/main/java/uw/cse/mag/appliancereader/lib/cv/params/sift/DetectorController.java:86-90 | an equal value changes nothing and announces nothing; otherwise the configuration changes in this field only and `update()` runs: refused with `ConfigException` and nothing downstream changes, or installed and announced once |
| DetectorController.SetFeaturesPerScale | library/src/main/java/uw/cse/mag/appliancereader/lib/cv/params/sift/DetectorController.java:99-103 | an equal value changes nothing and announces nothing; otherwise the configuration changes in this field only and `update()` runs: refused with `ConfigException` and nothing downstream changes, or installed and announced once |
| DetectorController.SetEdgeThreshold | library/src/main/java/uw/cse/mag/appliancereader/lib/cv/params/sift/DetectorController.java:113-117 | an equal value changes nothing and announces nothing; otherwise the configuration changes in this field only and `update()` runs: refused with `ConfigException` and nothing downstream changes, or installed and announced once |
| DetectorController.Equals | library/src/main/java/uw/cse/mag/appliancereader/lib/cv/params/core/BaseController.java:127-134 | the inherited `equals`: every controller equals itself, and two are equal exactly when their defaulted flags and installed configurations agree; the controller's own fields are not read |
| DetectorController.HashCode | library/src/main/java/uw/cse/mag/appliancereader/lib/cv/params/core/BaseController.java:137-141 | the inherited hash is a Java `int` |
| EqualDetectorControllersHashEqually | library/src/main/java/uw/cse/mag/appliancereader/lib/cv/params/core/BaseController.java:127-141 | controllers that are `equals` have the same `hashCode` |
| OrientationController.Init | library/src/main/java/uw/cse/mag/appliancereader/lib/cv/params/sift/OrientationController.java:49-53 | the base starts defaulted with no configuration and the given listener, and the fields hold the documented defaults |
| OrientationController.Create | library/src/main/java/uw/cse/mag/appliancereader/lib/cv/params/sift/OrientationController.java:49-59 | the defaults pass through `update()`: installed and announced to the listener as (null, null, kind); refused defaults, or a listener failure, surface as `IllegalStateException` |
| OrientationController.Update | library/src/main/java/uw/cse/mag/appliancereader/lib/cv/params/sift/OrientationController.java:122-124 | `update()` validates the configuration the fields describe: refused, it leaves the installed one and the listener untouched with `ConfigException`; accepted, it is installed and announced once |
| OrientationController.SetDefaulted | library/src/main/java/uw/cse/mag/appliancereader/lib/cv/params/core/BaseController.java:73-82 | a repeated value changes nothing; a new one flips the flag and re-runs `update()`, swallowing its `ConfigException` |
| OrientationController.SetHistogramSize | library/src/main/java/uw/cse/mag/appliancereader/lib/cv/params/sift/OrientationController.java:72-76 | an equal value changes nothing and announces nothing; otherwise the configuration changes in this field only and `update()` runs: refused with `ConfigException` and nothing downstream changes, or installed and announced once |
| OrientationController.SetSigmaToRadius | library/src/main/java/uw/cse/mag/appliancereader/lib/cv/params/sift/OrientationController.java:85-89 | an equal value changes nothing and announces nothing; otherwise the configuration changes in this field only and `update()` runs: refused with `ConfigException` and nothing downstream changes, or installed and announced once |
| OrientationController.SetSigmaEnlarge | library/src/main/java/uw/cse/mag/appliancereader/lib/cv/params/sift/OrientationController.java:98-102 | an equal value changes nothing and announces nothing; otherwise the configuration changes in this field only and `update()` runs: refused with `ConfigException` and nothing downstream changes, or installed and announced once |
| OrientationController.Equals | library/src/main/java/uw/cse/mag/appliancereader/lib/cv/params/core/BaseController.java:127-134 | the inherited `equals`: every controller equals itself, and two are equal exactly when their defaulted flags and installed configurations agree; the controller's own fields are not read |
| OrientationController.HashCode | library/src/main/java/uw/cse/mag/appliancereader/lib/cv/params/core/BaseController.java:137-141 | the inherited hash is a Java `int` |
| EqualOrientationControllersHashEqually | library/src/main/java/uw/cse/mag/appliancereader/lib/cv/params/core/BaseController.java:127-141 | controllers that are `equals` have the same `hashCode` |
| DescribeController.Init | library/src/main/java/uw/cse/mag/appliancereader/lib/cv/params/sift/DescribeController.java:42-48 | the base starts defaulted with no configuration and the given listener, and the fields hold the documented defaults |
| DescribeController.Create | library/src/main/java/uw/cse/mag/appliancereader/lib/cv/params/sift/DescribeController.java:42-54 | the defaults pass through `update()`: installed and announced to the listener as (null, null, kind); refused defaults, or a listener failure, surface as `IllegalStateException` |
| DescribeController.Update | library/src/main/java/uw/cse/mag/appliancereader/lib/cv/params/sift/DescribeController.java:150-153 | `update()` validates the configuration the fields describe: refused, it leaves the installed one and the listener untouched with `ConfigException`; accepted, it is installed and announced once |
| DescribeController.SetDefaulted | library/src/main/java/uw/cse/mag/appliancereader/lib/cv/params/core/BaseController.java:73-82 | a repeated value changes nothing; a new one flips the flag and re-runs `update()`, swallowing its `ConfigException` |
| DescribeController.SetGridWidth | library/src/main/java/uw/cse/mag/appliancereader/lib/cv/params/sift/DescribeController.java:67-71 | an equal value changes nothing and announces nothing; otherwise the configuration changes in this field only and `update()` runs: refused with `ConfigException` and nothing downstream changes, or installed and announced once |
| DescribeController.SetNumSamples | library/src/main/java/uw/cse/mag/appliancereader/lib/cv/params/sift/DescribeController.java:80-84 | an equal value changes nothing and announces nothing; otherwise the configuration changes in this field only and `update()` runs: refused with `ConfigException` and nothing downstream changes, or installed and announced once |
| DescribeController.SetNumHistBins | library/src/main/java/uw/cse/mag/appliancereader/lib/cv/params/sift/DescribeController.java:93-97 | an equal value changes nothing and announces nothing; otherwise the configuration changes in this field only and `update()` runs: refused with `ConfigException` and nothing downstream changes, or installed and announced once |
| DescribeController.SetWeightSigma | library/src/main/java/uw/cse/mag/appliancereader/lib/cv/params/sift/DescribeController.java:106-110 | an equal value changes nothing and announces nothing; otherwise the configuration changes in this field only and `update()` runs: refused with `ConfigException` and nothing downstream changes, or installed and announced once |
| DescribeController.SetSigmaToRadius | library/src/main/java/uw/cse/mag/appliancereader/lib/cv/params/sift/DescribeController.java:117-121 | an equal value changes nothing and announces nothing; otherwise the configuration changes in this field only and `update()` runs: refused with `ConfigException` and nothing downstream changes, or installed and announced once |
| DescribeController.Equals | library/src/main/java/uw/cse/mag/appliancereader/lib/cv/params/core/BaseController.java:127-134 | the inherited `equals`: every controller equals itself, and two are equal exactly when their defaulted flags and installed configurations agree; the controller's own fields are not read |
| DescribeController.HashCode | library/src/main/java/uw/cse/mag/appliancereader/lib/cv/params/core/BaseController.java:137-141 | the inherited hash is a Java `int` |
| EqualDescribeControllersHashEqually | library/src/main/java/uw/cse/mag/appliancereader/lib/cv/params/core/BaseController.java:127-141 | controllers that are `equals` have the same `hashCode` |
| FeatureDetectionParams.constructor | library/src/main/java/uw/cse/mag/appliancereader/lib/cv/params/core/FeatureDetectionParams.java:67-74 | a new parameter set has the default scorer, flags, distance and feature count, no detector, no associator and no listener |
| FeatureDetectionParams.GetCurrentDetDesc | library/src/main/java/uw/cse/mag/appliancereader/lib/cv/params/core/FeatureDetectionParams.java:197-206 | the detector is built from the controllers' installed configurations on first use and returned unchanged afterwards |
| FeatureDetectionParams.GetScorer | library/src/main/java/uw/cse/mag/appliancereader/lib/cv/params/core/FeatureDetectionParams.java:124-139 | after a detector is made ready, the chosen scorer is returned, squared only for the Euclidean one |
| FeatureDetectionParams.GetCurrentAssociater | library/src/main/java/uw/cse/mag/appliancereader/lib/cv/params/core/FeatureDetectionParams.java:213-223 | the greedy associator is built from scorer, maximum distance and backwards validation on first use and kept afterwards |
| FeatureDetectionParams.UpdateDetector | library/src/main/java/uw/cse/mag/appliancereader/lib/cv/params/core/FeatureDetectionParams.java:92-98 | a new detector is built from the controllers' configurations, kept, and announced to the listener as (new, old); the settings do not change |
| FeatureDetectionParams.TellDetDescChanged | library/src/main/java/uw/cse/mag/appliancereader/lib/cv/params/core/FeatureDetectionParams.java:95-96 | the listener is told (new, old) detector once, and the controllers are left untouched |
| FeatureDetectionParams.UpdateAssociater | library/src/main/java/uw/cse/mag/appliancereader/lib/cv/params/core/FeatureDetectionParams.java:104-111 | a new associator is built from the current settings, kept, and announced to the listener as (new, old) |
| FeatureDetectionParams.RebuildAssociater | library/src/main/java/uw/cse/mag/appliancereader/lib/cv/params/core/FeatureDetectionParams.java:105-107 | the new associator's setup is exactly the current scorer, maximum distance and backwards-validation flag |
| FeatureDetectionParams.TellAssociaterChanged | library/src/main/java/uw/cse/mag/appliancereader/lib/cv/params/core/FeatureDetectionParams.java:108-109 | the listener is told (new, old) associator once, and the controllers are left untouched |
| FeatureDetectionParams.OnConfigurationChanged | library/src/main/java/uw/cse/mag/appliancereader/lib/cv/params/core/FeatureDetectionParams.java:311-317 | whatever controller changed, the detector is rebuilt and announced |
| FeatureDetectionParams.SetListener | library/src/main/java/uw/cse/mag/appliancereader/lib/cv/params/core/FeatureDetectionParams.java:234-236 | the listener is replaced and nothing else changes |
| FeatureDetectionParams.SetScorer | library/src/main/java/uw/cse/mag/appliancereader/lib/cv/params/core/FeatureDetectionParams.java:243-250 | null is a `NullPointerException` with no change; the same scorer changes nothing; a new one is stored and the associator rebuilt and announced; `checkRep` keeps holding |
| FeatureDetectionParams.SetSquareEuclidian | library/src/main/java/uw/cse/mag/appliancereader/lib/cv/params/core/FeatureDetectionParams.java:258-262 | the same flag changes nothing; a new one is stored and the associator rebuilt and announced; `checkRep` keeps holding |
| FeatureDetectionParams.SetBackwardsValidation | library/src/main/java/uw/cse/mag/appliancereader/lib/cv/params/core/FeatureDetectionParams.java:270-274 | the same flag changes nothing; a new one is stored and the associator rebuilt and announced; `checkRep` keeps holding |
| FeatureDetectionParams.SetMaxDistance | library/src/main/java/uw/cse/mag/appliancereader/lib/cv/params/core/FeatureDetectionParams.java:283-290 | a non-positive distance is an `IllegalArgumentException` with no change; the same one changes nothing; otherwise it is stored and the associator rebuilt and announced; `checkRep` keeps holding |
| FeatureDetectionParams.SetMaxFeatures | library/src/main/java/uw/cse/mag/appliancereader/lib/cv/params/core/FeatureDetectionParams.java:297-304 | a non-positive count is an `IllegalArgumentException` with no change; the same one changes nothing; otherwise it is stored and the associator rebuilt and announced; `checkRep` keeps holding |
| FeatureDetectionParams.NewSift | library/src/main/java/uw/cse/mag/appliancereader/lib/cv/params/sift/SiftParams.java:51-77 | any null controller is a `NullPointerException` before anything changes; otherwise a fresh SIFT parameter set over those controllers, each now reporting to it |
| FeatureDetectionParams.NewDefaultSift | library/src/main/java/uw/cse/mag/appliancereader/lib/cv/params/sift/SiftParams.java:44-49 | four fresh default controllers wired to a fresh parameter set; a refused default gives `IllegalStateException` |
| FeatureDetectionParams.NewFastSurf | library/src/main/java/uw/cse/mag/appliancereader/lib/cv/params/surf/FastSurfParams.java:37-56 | any null controller is a `NullPointerException`; otherwise a fresh fast-SURF parameter set over those controllers, each now reporting to it |
| FeatureDetectionParams.NewDefaultFastSurf | library/src/main/java/uw/cse/mag/appliancereader/lib/cv/params/surf/FastSurfParams.java:28-32 | three fresh default controllers wired to a fresh fast-SURF parameter set; a refused default gives `IllegalStateException` |
| FeatureDetectionParams.NewStableSurf | library/src/main/java/uw/cse/mag/appliancereader/lib/cv/params/surf/StableSurfParams.java:36-53 | any null controller is a `NullPointerException`; otherwise a fresh stable-SURF parameter set over those controllers, each now reporting to it |
| FeatureDetectionParams.NewDefaultStableSurf | library/src/main/java/uw/cse/mag/appliancereader/lib/cv/params/surf/StableSurfParams.java:30-34 | three fresh default controllers wired to a fresh stable-SURF parameter set; a refused default gives `IllegalStateException` |
| FeatureDetectionParams.SettingsHash | library/src/main/java/uw/cse/mag/appliancereader/lib/cv/params/core/FeatureDetectionParams.java:339-349 | the hash of the five settings is a Java `int` |
| FeatureDetectionParams.HashCode | library/src/main/java/uw/cse/mag/appliancereader/lib/cv/params/surf/SurfParams.java:69-73 | the subclass hash is a Java `int` |
| FeatureDetectionParams.Equals | library/src/main/java/uw/cse/mag/appliancereader/lib/cv/params/surf/FastSurfParams.java:96-107 | every parameter set is `equals` to itself, the identity shortcut of the three subclasses |
| EqualParamsHashEqually | library/src/main/java/uw/cse/mag/appliancereader/lib/cv/params/sift/SiftParams.java:138-157 | parameter sets that are `equals` have the same `hashCode`, for all three subclasses |
| SiftEqualityIgnoresSettings | library/src/main/java/uw/cse/mag/appliancereader/lib/cv/params/sift/SiftParams.java:138-148 | two SIFT parameter sets over the same controllers are equal whatever their association settings |
| HomographyParams.constructor | library/src/main/java/uw/cse/mag/appliancereader/lib/cv/params/homography/HomographyParams.java:88-99 | the five settings are the arguments, taken without validation |
| HomographyParams.Default | library/src/main/java/uw/cse/mag/appliancereader/lib/cv/params/homography/HomographyParams.java:74-77 | the settings are the documented defaults and nothing is built or listening yet |
| HomographyParams.GetHomographyComputer | library/src/main/java/uw/cse/mag/appliancereader/lib/cv/params/homography/HomographyParams.java:262-267 | the estimator is built from the normalization flag on first use and kept afterwards |
| HomographyParams.GetModelMatcher | library/src/main/java/uw/cse/mag/appliancereader/lib/cv/params/homography/HomographyParams.java:252-257 | the matcher is built on first use and kept afterwards; an existing one leaves the object untouched |
| HomographyParams.CreateMatcher | library/src/main/java/uw/cse/mag/appliancereader/lib/cv/params/homography/HomographyParams.java:273-288 | RANSAC over the (possibly newly built) estimator with the current seed, metric, iteration count and threshold |
| HomographyParams.UpdateModelMatcher | library/src/main/java/uw/cse/mag/appliancereader/lib/cv/params/homography/HomographyParams.java:118-123 | the matcher from the cache is announced to the listener as (new, old), so an existing matcher is announced as both |
| HomographyParams.UpdateHomographyComputer | library/src/main/java/uw/cse/mag/appliancereader/lib/cv/params/homography/HomographyParams.java:107-113 | the estimator is announced, then the matcher; a listener exception after the first notice skips the second |
| HomographyParams.SetNormalize | library/src/main/java/uw/cse/mag/appliancereader/lib/cv/params/homography/HomographyParams.java:135-139 | the same flag changes nothing; a new one is stored and the estimator update runs |
| HomographyParams.SetErrorMetric | library/src/main/java/uw/cse/mag/appliancereader/lib/cv/params/homography/HomographyParams.java:146-152 | null is an `IllegalArgumentException`; the same metric changes nothing; otherwise stored and the matcher update runs |
| HomographyParams.SetRandomizeSeed | library/src/main/java/uw/cse/mag/appliancereader/lib/cv/params/homography/HomographyParams.java:160-166 | a non-positive seed is a `ConfigException` with no change; the same seed changes nothing; otherwise stored and the matcher update runs |
| HomographyParams.SetNumIterations | library/src/main/java/uw/cse/mag/appliancereader/lib/cv/params/homography/HomographyParams.java:173-179 | a non-positive count is a `ConfigException` with no change; the same count changes nothing; otherwise stored and the matcher update runs |
| HomographyParams.SetThresholdFit | library/src/main/java/uw/cse/mag/appliancereader/lib/cv/params/homography/HomographyParams.java:187-193 | a non-positive threshold is a `ConfigException` with no change; the same one changes nothing; otherwise stored and the matcher update runs |
| HomographyParams.SetListener | library/src/main/java/uw/cse/mag/appliancereader/lib/cv/params/homography/HomographyParams.java:195-197 | the listener is replaced; settings, estimator and matcher are kept |
| HomographyParams.HashCode | library/src/main/java/uw/cse/mag/appliancereader/lib/cv/params/homography/HomographyParams.java:316-326 | the hash of the five settings is a Java `int` |
| HomographyParams.Equals | library/src/main/java/uw/cse/mag/appliancereader/lib/cv/params/homography/HomographyParams.java:302-313 | every homography parameter set is `equals` to itself; only the five settings are read |
| EqualHomographyParamsHashEqually | library/src/main/java/uw/cse/mag/appliancereader/lib/cv/params/homography/HomographyParams.java:302-326 | homography parameters that are `equals` have the same `hashCode` |
| Descriptions | library/src/main/java/uw/cse/mag/appliancereader/lib/cv/ImagePointAssociator.java:220-224 | one descriptor per detected feature, in detection order |
| Locations | library/src/main/java/uw/cse/mag/appliancereader/lib/cv/ImagePointAssociator.java:220-224 | one location per detected feature, in detection order |
| Matched | library/src/main/java/uw/cse/mag/appliancereader/lib/cv/ImagePointAssociator.java:143-153 | one pair per index pair, in order, joining the source point of the first image to the destination point of the second |
| ImagePointAssociator.FeaturesOf | library/src/main/java/uw/cse/mag/appliancereader/lib/cv/ImagePointAssociator.java:207-227 | a detection result always has as many descriptors as points |
| ImagePointAssociator.constructor | library/src/main/java/uw/cse/mag/appliancereader/lib/cv/ImagePointAssociator.java:64-73 | no images, features, matches or listeners yet, and the parameters now report to the new associator with their settings, detector and associator kept |
| ImagePointAssociator.Create | library/src/main/java/uw/cse/mag/appliancereader/lib/cv/ImagePointAssociator.java:64-73 | null parameters are a `NullPointerException`; otherwise a fresh associator as above |
| ImagePointAssociator.CollectFeatures | library/src/main/java/uw/cse/mag/appliancereader/lib/cv/ImagePointAssociator.java:219-224 | the loop gathers exactly the descriptors and the locations of the detected features |
| ImagePointAssociator.PairUp | library/src/main/java/uw/cse/mag/appliancereader/lib/cv/ImagePointAssociator.java:143-153 | the loop builds exactly the point pairs the match indices select |
| ImagePointAssociator.DescribeInput | library/src/main/java/uw/cse/mag/appliancereader/lib/cv/ImagePointAssociator.java:207-227 | no image gives no features and changes nothing; otherwise the features the (possibly newly built) detector finds |
| ImagePointAssociator.DescribeImage | library/src/main/java/uw/cse/mag/appliancereader/lib/cv/ImagePointAssociator.java:195-199 | no image gives no features; otherwise the features of the converted image |
| ImagePointAssociator.Associate | library/src/main/java/uw/cse/mag/appliancereader/lib/cv/ImagePointAssociator.java:131-156 | the (possibly newly built) associator matches the descriptors and the result is the point pairs of its matches |
| ImagePointAssociator.Update | library/src/main/java/uw/cse/mag/appliancereader/lib/cv/ImagePointAssociator.java:112-120 | without features of both images nothing happens; otherwise the matches are recomputed and each listener is told (new, old) once, until one throws |
| ImagePointAssociator.Notify | library/src/main/java/uw/cse/mag/appliancereader/lib/cv/ImagePointAssociator.java:116-119 | the loop tells each listener of the set once, no one twice, and all of them unless one throws `IllegalStateException` |
| ImagePointAssociator.SetReferenceImage | library/src/main/java/uw/cse/mag/appliancereader/lib/cv/ImagePointAssociator.java:84-90 | null or the current image changes nothing; otherwise the image is kept, its features computed and the matches updated |
| ImagePointAssociator.SetOtherImage | library/src/main/java/uw/cse/mag/appliancereader/lib/cv/ImagePointAssociator.java:97-103 | null or the current image changes nothing; otherwise the image is kept, its features computed and the matches updated |
| ImagePointAssociator.OnDetDescChanged | library/src/main/java/uw/cse/mag/appliancereader/lib/cv/ImagePointAssociator.java:234-240 | a null detector is ignored; otherwise both images are described again with the current detector and the matches updated |
| ImagePointAssociator.OnDescriptorAssociaterChanged | library/src/main/java/uw/cse/mag/appliancereader/lib/cv/ImagePointAssociator.java:243-247 | a null associator is ignored; otherwise the matches are updated |
| ImagePointAssociator.AddListener | library/src/main/java/uw/cse/mag/appliancereader/lib/cv/ImagePointAssociator.java:258-261 | null is ignored; otherwise the listener joins the set |
| ImagePointAssociator.RemoveListener | library/src/main/java/uw/cse/mag/appliancereader/lib/cv/ImagePointAssociator.java:269-271 | the listener leaves the set, and the result says whether it was in it |
| ImagePointAssociator.HashCode | library/src/main/java/uw/cse/mag/appliancereader/lib/cv/ImagePointAssociator.java:299-301 | the associator's hash is a Java `int` |
| ImagePointAssociator.Equals | library/src/main/java/uw/cse/mag/appliancereader/lib/cv/ImagePointAssociator.java:289-296 | every associator is `equals` to itself; only the parameter sets are read |
| EqualAssociatorsHashEqually | library/src/main/java/uw/cse/mag/appliancereader/lib/cv/ImagePointAssociator.java:289-301 | associators that are `equals` have the same `hashCode` |
| DeliveredOnceSnoc | library/src/main/java/uw/cse/mag/appliancereader/lib/cv/ImagePointAssociator.java:116-119 | telling one more listener not yet told extends the set of listeners told by exactly it |
| RecipientsSnoc | library/src/main/java/uw/cse/mag/appliancereader/lib/cv/ImagePointAssociator.java:116-119 | one more notice adds exactly its addressee to the set of listeners told |
| HomographyCalculator.constructor | library/src/main/java/uw/cse/mag/appliancereader/lib/cv/HomographyCalculator.java:58-66 | no associator, images, inliers, homography or listeners yet, and the parameters report to the new calculator |
| HomographyCalculator.Create | library/src/main/java/uw/cse/mag/appliancereader/lib/cv/HomographyCalculator.java:58-66 | null parameters are a `NullPointerException`; otherwise a fresh calculator as above |
| HomographyCalculator.AddListener | library/src/main/java/uw/cse/mag/appliancereader/lib/cv/HomographyCalculator.java:78-81 | null is ignored; otherwise the listener is appended to the list |
| HomographyCalculator.RemoveListener | library/src/main/java/uw/cse/mag/appliancereader/lib/cv/HomographyCalculator.java:160-162 | the first occurrence is removed, the order of the others kept, and the result says whether there was one |
| HomographyCalculator.SetImageAssociator | library/src/main/java/uw/cse/mag/appliancereader/lib/cv/HomographyCalculator.java:88-108 | null is ignored; otherwise the calculator leaves the old associator and joins the new one, then hands it the reference image and the other image it has, in that order, the reference notices first; an exception from the reference hand-over skips the other image; every notice is a match update to a listener of the new associator |
| HomographyCalculator.HandImagesTo | library/src/main/java/uw/cse/mag/appliancereader/lib/cv/HomographyCalculator.java:100-107 | the reference image is handed over first and its notices open the sequence; an exception from it skips the other image; each notice is a match update to a listener of the associator; afterwards the associator's matches are those of its current features, and when only the reference image was handed over they were recomputed and announced as `update()` does |
| HomographyCalculator.SetReferenceImage | library/src/main/java/uw/cse/mag/appliancereader/lib/cv/HomographyCalculator.java:116-128 | null is a `NullPointerException`; the current image changes nothing; otherwise it is kept and always passed on to the associator, which then holds it; an image the associator already holds changes nothing there, and a new one makes it recompute its matches and tell its listeners as `update()` does; every notice is a match update to one of the associator's listeners |
| HomographyCalculator.SetOtherImage | library/src/main/java/uw/cse/mag/appliancereader/lib/cv/HomographyCalculator.java:136-147 | null is a `NullPointerException`; the current image changes nothing; otherwise it is kept and always passed on to the associator, which then holds it; an image the associator already holds changes nothing there, and a new one makes it recompute its matches and tell its listeners as `update()` does; every notice is a match update to one of the associator's listeners |
| HomographyCalculator.ComputeInliers | library/src/main/java/uw/cse/mag/appliancereader/lib/cv/HomographyCalculator.java:170-183 | null matches are a `NullPointerException`; no matches give no inliers; otherwise RANSAC's inliers, all drawn from the matches, are kept |
| HomographyCalculator.ComputeHomography | library/src/main/java/uw/cse/mag/appliancereader/lib/cv/HomographyCalculator.java:190-210 | no inliers is an `IllegalStateException`; fewer than four give no homography; otherwise the estimate replaces the homography and every listener is told, in list order |
| HomographyCalculator.OnMatchesUpdate | library/src/main/java/uw/cse/mag/appliancereader/lib/cv/HomographyCalculator.java:283-288 | null or empty matches end in `IllegalStateException`; otherwise inliers and homography are recomputed |
| HomographyCalculator.OnModelMatcherChanged | library/src/main/java/uw/cse/mag/appliancereader/lib/cv/HomographyCalculator.java:273-280 | without an associator holding matches nothing happens; otherwise inliers and homography are recomputed from its matches |
| HomographyCalculator.OnHomographyComputerChanged | library/src/main/java/uw/cse/mag/appliancereader/lib/cv/HomographyCalculator.java:267-270 | with kept inliers the homography is recomputed from them |
| DetectionResults.NewDetectionResultArgument | library/src/main/java/uw/cse/mag/appliancereader/lib/cv/DetectionResultArgument.java:29-41 | succeeds exactly when no argument is null, and then the getters return the arguments; a null one is a `NullPointerException` |
| ListOps.IndexOf | library/src/main/java/uw/cse/mag/appliancereader/lib/cv/HomographyCalculator.java:160-162 | the position of the first occurrence: the element is there and not before it |
| ListOps.RemoveFirst | library/src/main/java/uw/cse/mag/appliancereader/lib/cv/HomographyCalculator.java:160-162 | an absent element leaves the list alone; a present one shortens it by one, and nothing new appears |
| ListOps.RemoveFirstSplits | library/src/main/java/uw/cse/mag/appliancereader/lib/cv/HomographyCalculator.java:160-162 | exactly the first occurrence is removed, and the rest keep their order |
| ListOps.RemoveFirstCount | library/src/main/java/uw/cse/mag/appliancereader/lib/cv/HomographyCalculator.java:160-162 | the multiset of elements loses exactly one copy of the element |
| JavaInt.Wrap | library/src/main/java/uw/cse/mag/appliancereader/lib/data/RectangularBoundary.java:85-91 | the Java `int` congruent to the value modulo 2^32 |
| JavaInt.Hash31 | library/src/main/java/uw/cse/mag/appliancereader/lib/data/RectangularBoundary.java:85-91 | one step `31 * result + field` of a hash, wrapped to `int` |
| JavaInt.WrapOfInt32 | library/src/main/java/uw/cse/mag/appliancereader/lib/data/RectangularBoundary.java:85-91 | wrapping leaves a Java `int` alone |
| JavaInt.WrapCongruent | library/src/main/java/uw/cse/mag/appliancereader/lib/data/RectangularBoundary.java:85-91 | congruent values modulo 2^32 wrap to the same `int` |
| JavaInt.Hash31Congruent | library/src/main/java/uw/cse/mag/appliancereader/lib/data/RectangularBoundary.java:85-91 | wrapping at every step of a hash agrees modulo 2^32 with the unwrapped computation |
| ApplianceTypes.UpperCase | library/src/main/java/uw/cse/mag/appliancereader/lib/data/ApplianceType.java:18 | every character, in place, upper-cased |
| ApplianceTypes.ToString | library/src/main/java/uw/cse/mag/appliancereader/lib/data/ApplianceType.java:17-24 | the name of a constant is the string it was declared with, which upper-casing leaves as it is |
| ApplianceTypes.UpperCaseOfUpper | library/src/main/java/uw/cse/mag/appliancereader/lib/data/ApplianceType.java:17-19 | a string without lower-case letters is its own upper case |
| ApplianceTypes.NamesDistinct | library/src/main/java/uw/cse/mag/appliancereader/lib/data/ApplianceType.java:7-9 | no two constants have names that match ignoring case |
| ApplianceTypes.ValuesComplete | library/src/main/java/uw/cse/mag/appliancereader/lib/data/ApplianceType.java:36 | `values()` lists every constant |
| ApplianceTypes.Find | library/src/main/java/uw/cse/mag/appliancereader/lib/data/ApplianceType.java:36-38 | a constant found has a matching name; when none is found, no constant's name matches |
| ApplianceTypes.GetType | library/src/main/java/uw/cse/mag/appliancereader/lib/data/ApplianceType.java:32-40 | null is a `NullPointerException`; any other string gives the constant whose name it matches ignoring case, and `OTHER` when it matches none |
| ApplianceTypes.EqualsIgnoreCaseTransitive | library/src/main/java/uw/cse/mag/appliancereader/lib/data/ApplianceType.java:37 | matching ignoring case is symmetric and transitive |
| ApplianceTypes.GetTypeOfToString | library/src/main/java/uw/cse/mag/appliancereader/lib/data/ApplianceType.java:22-40 | every constant is looked up again from its own name |
| ApplianceTypes.GetTypeIgnoresCase | library/src/main/java/uw/cse/mag/appliancereader/lib/data/ApplianceType.java:32-40 | strings that match ignoring case are looked up to the same result |
| ApplianceTypes.GetTypeOfUpperCase | library/src/main/java/uw/cse/mag/appliancereader/lib/data/ApplianceType.java:32-40 | upper-casing a string does not change what it is looked up to |
| Appliances.Appliance.constructor | library/src/main/java/uw/cse/mag/appliancereader/lib/data/Appliance.java:73-75 | make, model and kind are the arguments; no nickname and no reference image yet |
| Appliances.Appliance.Create | library/src/main/java/uw/cse/mag/appliancereader/lib/data/Appliance.java:69-78 | a null make, model or type is an `IllegalArgumentException`; otherwise a fresh appliance holding them |
| Appliances.Appliance.CreateOfUnknownKind | library/src/main/java/uw/cse/mag/appliancereader/lib/data/Appliance.java:56-58 | as above, of kind `UNKNOWN` |
| Appliances.Appliance.GetNickName | library/src/main/java/uw/cse/mag/appliancereader/lib/data/Appliance.java:113-117 | the nickname when set; otherwise the make, one space and the model |
| Appliances.Appliance.SetNickNameAsWritten | library/src/main/java/uw/cse/mag/appliancereader/lib/data/Appliance.java:137-139 | the field is assigned to itself: neither it nor `getNickName()` changes, whatever the argument |
| Appliances.Appliance.SetNickName | library/src/main/java/uw/cse/mag/appliancereader/lib/data/Appliance.java:130-139 | the client's nickname is kept and reported by `getNickName()` from then on |
| Appliances.Appliance.SetReferenceImagePath | library/src/main/java/uw/cse/mag/appliancereader/lib/data/Appliance.java:146-148 | the reference image path is the argument and the nickname is kept |
| Appliances.DefaultNickNameNamesTheAppliance | library/src/main/java/uw/cse/mag/appliancereader/lib/data/Appliance.java:113-117 | without a nickname the one reported starts with the make and ends with the model |
| Appliances.NickNameIsLost | library/src/main/java/uw/cse/mag/appliancereader/lib/data/Appliance.java:137-139 | an appliance "Acme" "M1" given the nickname "Oven" by the code as written still reports "Acme M1" |
| Appliances.NickNameIsKept | library/src/main/java/uw/cse/mag/appliancereader/lib/data/Appliance.java:130-139 | with the intended setter the same appliance reports "Oven" |
| Boundaries.RectangularBoundary.Equals | library/src/main/java/uw/cse/mag/appliancereader/lib/data/RectangularBoundary.java:70-82 | every boundary is `equals` to itself |
| Boundaries.RectangularBoundary.HashCode | library/src/main/java/uw/cse/mag/appliancereader/lib/data/RectangularBoundary.java:85-91 | the hash is the Java `int` that 29791·x + 961·y + 31·width + height wraps to |
| Boundaries.EqualsIsEquality | library/src/main/java/uw/cse/mag/appliancereader/lib/data/RectangularBoundary.java:70-82 | `equals` holds exactly when the four coordinates agree |
| Boundaries.EqualBoundariesHashEqually | library/src/main/java/uw/cse/mag/appliancereader/lib/data/RectangularBoundary.java:70-91 | equal boundaries have equal hash codes |
| Directories.DirName | library/src/main/java/uw/cse/mag/appliancereader/lib/storage/ApplianceDirectory.java:114-116 | the make, one underscore and the model, in that order |
| Directories.FirstUnderscore | library/src/main/java/uw/cse/mag/appliancereader/lib/storage/ApplianceDirectory.java:114-116 | the position of the first underscore, or the length when there is none |
| Directories.DirNameInjective | library/src/main/java/uw/cse/mag/appliancereader/lib/storage/ApplianceDirectory.java:114-116 | for makes without an underscore, different appliances get different directory names |
| Directories.UnderscoreAt | library/src/main/java/uw/cse/mag/appliancereader/lib/storage/ApplianceDirectory.java:114-116 | in a directory name of a make without an underscore, the first underscore is right after the make |
| Directories.DirNameCollision | library/src/main/java/uw/cse/mag/appliancereader/lib/storage/ApplianceDirectory.java:114-116 | make "a_b" with model "c" and make "a" with model "b_c" share one directory name |
| Directories.EntryOf | library/src/main/java/uw/cse/mag/appliancereader/lib/storage/ApplianceDirectory.java:50-55 | a path is missing exactly when it does not exist, and a directory exactly when it exists and is one |
| Directories.EntryAfterCreateAsWritten | library/src/main/java/uw/cse/mag/appliancereader/lib/storage/ApplianceDirectory.java:48-57 | as written, the constructor leaves an existing path as it was, and no path missing |
| Directories.CreateLeavesPlainFile | library/src/main/java/uw/cse/mag/appliancereader/lib/storage/ApplianceDirectory.java:48-57 | as written, a missing path ends up as a plain file, not as a directory |
| Directories.EntryAfterCreate | library/src/main/java/uw/cse/mag/appliancereader/lib/storage/ApplianceDirectory.java:48-57 | the corrected creation leaves a directory exactly when no plain file was there, and keeps any existing path |
| Directories.ApplianceDirectory.constructor | library/src/main/java/uw/cse/mag/appliancereader/lib/storage/ApplianceDirectory.java:43-47 | the directory, the appliance and what is on disk at the directory are the arguments |
| Directories.ApplianceDirectory.Create | library/src/main/java/uw/cse/mag/appliancereader/lib/storage/ApplianceDirectory.java:32-65 | a null parent or appliance is a `NullPointerException`; a parent that is not a directory an `IllegalArgumentException`; a directory that neither exists nor can be made an `IllegalStateException`; otherwise the child of the parent named by `getDirName`, which the corrected creation leaves a directory unless a plain file was there |
| Directories.ApplianceDirectory.Sync | library/src/main/java/uw/cse/mag/appliancereader/lib/storage/ApplianceDirectory.java:82-89 | synchronising never reports an update |
| Directories.ApplianceDirectory.Represents | library/src/main/java/uw/cse/mag/appliancereader/lib/storage/ApplianceDirectory.java:73-75 | no directory represents a null appliance |
| Directories.ApplianceDirectory.Equals | library/src/main/java/uw/cse/mag/appliancereader/lib/storage/ApplianceDirectory.java:92-97 | no directory is `equals` to null, and every directory is `equals` to itself |
| Directories.ApplianceDirectory.HashCode | library/src/main/java/uw/cse/mag/appliancereader/lib/storage/ApplianceDirectory.java:99-102 | a Java `int` congruent to three times the appliance's identity hash |
| Directories.EqualsIffRepresents | library/src/main/java/uw/cse/mag/appliancereader/lib/storage/ApplianceDirectory.java:73-97 | two directories are `equals` exactly when the second represents the first's appliance |
| Directories.EqualsSymmetric | library/src/main/java/uw/cse/mag/appliancereader/lib/storage/ApplianceDirectory.java:91-97 | `equals` is symmetric |
| Directories.EqualDirectoriesHashEqually | library/src/main/java/uw/cse/mag/appliancereader/lib/storage/ApplianceDirectory.java:91-102 | equal directories have equal hash codes |
| DirectoryFactories.FirstRepresenting | library/src/main/java/uw/cse/mag/appliancereader/lib/storage/ApplianceDirectoryFactory.java:67-70 | the first directory representing the appliance, or the length when there is none |
| DirectoryFactories.FirstStop | library/src/main/java/uw/cse/mag/appliancereader/lib/storage/ApplianceDirectoryFactory.java:42-45 | the first factory whose main directory is null or the one asked for, or the length when there is none |
| DirectoryFactories.FirstStopFindsRegistered | library/src/main/java/uw/cse/mag/appliancereader/lib/storage/ApplianceDirectoryFactory.java:42-45 | in a valid registry a registered main directory is found at its own factory |
| DirectoryFactories.NullMainDirBlocksLaterSearches | library/src/main/java/uw/cse/mag/appliancereader/lib/storage/ApplianceDirectoryFactory.java:42-45 | once a factory with a null main directory is registered, every unregistered directory stops at it |
| DirectoryFactories.ApplianceDirectoryFactory.constructor | library/src/main/java/uw/cse/mag/appliancereader/lib/storage/ApplianceDirectoryFactory.java:54-57 | the main directory is the argument and no appliance directories are held yet |
| DirectoryFactories.ApplianceDirectoryFactory.GetDirectory | library/src/main/java/uw/cse/mag/appliancereader/lib/storage/ApplianceDirectoryFactory.java:65-77 | a held directory of the appliance is returned unchanged; otherwise a new one is created and appended, its errors leaving the cache as it was; at most one directory per appliance is held |
| DirectoryFactories.FactoryRegistry.constructor | library/src/main/java/uw/cse/mag/appliancereader/lib/storage/ApplianceDirectoryFactory.java:19 | no factories yet |
| DirectoryFactories.FactoryRegistry.GetFactory | library/src/main/java/uw/cse/mag/appliancereader/lib/storage/ApplianceDirectoryFactory.java:36-49 | the search stops at the first factory with a null or the requested main directory: null there is a `NullPointerException`, a match is returned; with no stop a new factory is appended; the registry stays valid |

## Left out

- `HomographyCalculator.ComputeInliers`: RANSAC is a pure function of its setup and the matches. DDogleg's RANSAC draws from a `Random` that advances with every `process` call, and `HomographyParams` keeps one matcher once it is built (HomographyParams.java:252-257, 285-286). So the model says that running twice on the same matches gives the same inliers, for instance when `onModelMatcherChanged` recomputes them (HomographyCalculator.java:273-280); the Java code does not promise that.
- BoofCV itself (detection, description, association, RANSAC, the linear estimator, `checkValidity`), image conversion and the file system are parameters of the model, not modelled: they are foreign code.
- Floating point: distances, thresholds and sigmas are `real`; `Double.compare`, NaN and `Double.doubleToLongBits` are not modelled, and the hash of a `double` is a parameter.
- BoofCV configuration objects are compared structurally; their own `equals` and `hashCode` are foreign, and the controllers' `equals` compares the installed configurations as values.
- `long` fields (the RANSAC seed) are unbounded integers: 64-bit overflow is not modelled.
- `HomographyParams.constructor`: a null error metric is accepted by the Java constructor and would fail later inside RANSAC; the model's metric cannot be null, so that path is not modelled.
- `ErrorMetric.getMetric` is a switch into BoofCV's error functions; the metric is kept as an enumeration value and handed to RANSAC as part of the matcher's settings.
- `generateRandom` in `HomographyParams` is never called by the core and is not modelled.
- `FeatureDetectionParams.NewFastSurf`: before the Java constructor throws for a null speed or integral controller, `SurfParams` has already made the fast-Hessian controller report to the half-built parameter set; the model refuses before any wiring. The same holds for `FeatureDetectionParams.NewStableSurf`.
- `FeatureDetectionParams.GetScorer`: the `IllegalStateException` for an unsupported scorer cannot happen with the four constants of `Scorer`, so it is left out; BoofCV's scorer factories are reduced to the chosen scorer and the squaring flag.
- `FeatureDetectionParams.SetMaxFeatures`: the feature count only sizes BoofCV's descriptor queue in `describeImage`, so the model stores it and rebuilds the associator, but the count plays no role in detection.
- `ImagePointAssociator.Associate`: requires that each detection result has as many descriptors as points, which `describeImage` guarantees for every result the associator keeps.
- `ImagePointAssociator.Notify`: the listeners of an image-point associator are modelled as homography calculators, the only listener the program installs; the order in which a `HashSet` delivers is not modelled, only that each is told once.
- `HomographyCalculator.ComputeHomography`: what a client `OnHomographyChangedListener` does with a notice is not part of this model; its reaction is empty.
- The getters of the controllers, parameter sets, associator and calculator are field reads and have no rows of their own; `toString` methods are left out (text for display only).
- `ApplianceTypes.UpperCase`: case conversion covers ASCII letters only; Java's Unicode case mapping is not modelled.
- `Appliance`'s map of other images and list of display features are created empty and never used by the core; `DisplayFeature`, `ImageSource` and `FileDirectoryManager` are not part of this model.
- `Directories.ApplianceDirectory.Create`: whether `createNewFile` throws is one foreign test, the only failure `Create` reports; `mkdir` never throws and its result is ignored. What ends up on disk is the ghost `onDisk` field, from the corrected creation (see Findings); the file system itself is not updated.
- `Directories.ApplianceDirectory.HashCode`: the appliance's identity hash is a parameter, since `Appliance` does not override `hashCode`.
- `ApplianceDirectory.equals` is modelled for directory arguments only; an argument of another class gives `false` in Java.
- The desktop application (views, `Main`, the archive demos, drawing of results) is outside the library core and is not modelled.
- `Boundary.java` is not part of this model.
- `BaseController.Equals`: Java's `equals` throws a `NullPointerException` when this controller has no installed configuration; the model compares the two absent configurations as values instead. Every way of building a controller installs a configuration first, so no caller reaches that case.

## Findings

| source | as written | input that shows it | evidently intended | confidence | as-written member | corrected member |
|---|---|---|---|---|---|---|
| library/src/main/java/uw/cse/mag/appliancereader/lib/data/Appliance.java:137-139 | `setNickName` assigns the nickname field to itself, so the argument is dropped | an appliance with make "Acme" and model "M1", given the nickname "Oven": `getNickName()` still returns "Acme M1" | the field takes the argument, as the method's documentation says, and `getNickName()` returns it | high; not executed | Appliances.Appliance.SetNickNameAsWritten, Appliances.NickNameIsLost | Appliances.Appliance.SetNickName, Appliances.NickNameIsKept |
| library/src/main/java/uw/cse/mag/appliancereader/lib/storage/ApplianceDirectory.java:48-57 | for a path that does not exist, `createNewFile` makes an empty plain file; that file is not a directory, so `mkdir` runs on a path that now exists, fails, and its `false` is ignored | a parent directory with no `make_model` child: afterwards the child is a plain file, not a directory | a missing path becomes a directory; an existing path is kept | high; not executed | Directories.EntryAfterCreateAsWritten, Directories.CreateLeavesPlainFile | Directories.EntryAfterCreate, Directories.ApplianceDirectory.Create |
