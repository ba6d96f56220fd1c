/**
 * `ApplianceDirectoryFactory`: one factory per main directory, each caching the appliance
 * directories it has made. Both the static list of factories and each factory's list of
 * directories are searched front to back and appended to when the search fails.
 */
module DirectoryFactories {
  import opened Wrappers
  import opened Appliances
  import opened Directories

  /** The index of the first directory that represents `app`, or `|ds|` when none does. */
  function FirstRepresenting(ds: seq<ApplianceDirectory>, app: Appliance?): (i: nat)
    ensures i <= |ds|
    ensures forall k | 0 <= k < i :: !ds[k].Represents(app)
    ensures i < |ds| ==> ds[i].Represents(app)
  {
    if ds == [] || ds[0].Represents(app) then 0 else 1 + FirstRepresenting(ds[1..], app)
  }

  /** No two cached directories represent the same appliance. */
  predicate DistinctAppliances(ds: seq<ApplianceDirectory>)
  {
    forall i, j | 0 <= i < j < |ds| :: ds[i].appliance != ds[j].appliance
  }

  /**
   * The index at which the search of `getFactory(d)` stops: the first factory whose main
   * directory is null (where `mMainDir.equals` throws) or equals `d`; `|fs|` when none.
   */
  function FirstStop(fs: seq<ApplianceDirectoryFactory>, d: Option<File>): (i: nat)
    ensures i <= |fs|
    ensures forall k | 0 <= k < i :: fs[k].mainDir.Some? && fs[k].mainDir != d
    ensures i < |fs| ==> fs[i].mainDir.None? || fs[i].mainDir == d
  {
    if fs == [] || fs[0].mainDir.None? || fs[0].mainDir == d then 0
    else 1 + FirstStop(fs[1..], d)
  }

  /**
   * What `getFactory` keeps true of the registry: main directories are distinct, and a
   * factory without a main directory can only be the last one, since every later search
   * throws on reaching it.
   */
  predicate RegistryValid(fs: seq<ApplianceDirectoryFactory>)
  {
    (forall i, j | 0 <= i < j < |fs| :: fs[i].mainDir != fs[j].mainDir) &&
    (forall i | 0 <= i < |fs| - 1 :: fs[i].mainDir.Some?)
  }

  /** In a valid registry the search for a registered main directory stops at its factory. */
  lemma FirstStopFindsRegistered(fs: seq<ApplianceDirectoryFactory>, k: nat, d: File)
    requires RegistryValid(fs)
    requires k < |fs| && fs[k].mainDir == Some(d)
    ensures FirstStop(fs, Some(d)) == k
  {
  }

  /**
   * Once a factory without a main directory is registered, a search for null or for any
   * directory not yet registered reaches it and throws.
   */
  lemma NullMainDirBlocksLaterSearches(fs: seq<ApplianceDirectoryFactory>, d: Option<File>)
    requires RegistryValid(fs)
    requires |fs| > 0 && fs[|fs| - 1].mainDir.None?
    requires d.None? || forall k | 0 <= k < |fs| :: fs[k].mainDir != d
    ensures FirstStop(fs, d) == |fs| - 1
  {
  }

  class ApplianceDirectoryFactory {
    /** `mMainDir` */
    const mainDir: Option<File>
    /** `mDirectories` */
    var directories: seq<ApplianceDirectory>

    /** The private constructor: no directories yet. */
    constructor (mainDir: Option<File>)
      ensures this.mainDir == mainDir && directories == []
    {
      this.mainDir := mainDir;
      directories := [];
    }

    /**
     * `getDirectory(app)`: the first cached directory that represents `app`; otherwise a
     * new directory in the main directory, appended to the cache. A failing construction
     * leaves the cache as it was.
     */
    method GetDirectory(app: Appliance?, fs: FileSystem) returns (r: Result<ApplianceDirectory>)
      modifies this
      ensures var k := FirstRepresenting(old(directories), app);
        k < |old(directories)| ==> r == Success(old(directories)[k]) && directories == old(directories)
      ensures FirstRepresenting(old(directories), app) == |old(directories)| ==>
        (r.Failure? ==> directories == old(directories)) &&
        (r.Success? ==>
          fresh(r.value) && r.value.appliance == app && directories == old(directories) + [r.value])
      ensures FirstRepresenting(old(directories), app) == |old(directories)| ==>
        (mainDir.None? || app == null ==> r == Failure(NullPointerException)) &&
        (mainDir.Some? && app != null && !fs.isDirectory(mainDir.value) ==>
          r == Failure(IllegalArgumentException)) &&
        (mainDir.Some? && app != null && fs.isDirectory(mainDir.value) ==>
          var dir := fs.child(mainDir.value, DirName(app.make, app.model));
          if !fs.fileExists(dir) && fs.createFails(dir) then r == Failure(IllegalStateException)
          else r.Success? && r.value.directory == dir)
      ensures DistinctAppliances(old(directories)) ==> DistinctAppliances(directories)
    {
      var i := 0;
      while i < |directories|
        invariant 0 <= i <= |directories|
        invariant forall k | 0 <= k < i :: !directories[k].Represents(app)
      {
        if directories[i].Represents(app) {
          assert FirstRepresenting(directories, app) == i;
          return Success(directories[i]);
        }
        i := i + 1;
      }
      assert FirstRepresenting(directories, app) == |directories|;
      r := ApplianceDirectory.Create(app, mainDir, fs);
      if r.Success? {
        directories := directories + [r.value];
      }
    }
  }

  /** The static `instances` list of `ApplianceDirectoryFactory`, created empty on first use. */
  class FactoryRegistry {
    var instances: seq<ApplianceDirectoryFactory>

    constructor ()
      ensures instances == []
    {
      instances := [];
    }

    /**
     * `getFactory(d)`: the registered factory whose main directory equals `d`; a search
     * that first meets a factory without a main directory throws a `NullPointerException`;
     * otherwise a new factory for `d` is registered and returned.
     */
    method GetFactory(d: Option<File>) returns (r: Result<ApplianceDirectoryFactory>)
      modifies this
      ensures var k := FirstStop(old(instances), d);
        k < |old(instances)| ==>
          instances == old(instances) &&
          (if old(instances)[k].mainDir.None? then r == Failure(NullPointerException)
           else r == Success(old(instances)[k]))
      ensures FirstStop(old(instances), d) == |old(instances)| ==>
        r.Success? && fresh(r.value) && r.value.mainDir == d && r.value.directories == [] &&
        instances == old(instances) + [r.value]
      ensures RegistryValid(old(instances)) ==> RegistryValid(instances)
    {
      var i := 0;
      while i < |instances|
        invariant 0 <= i <= |instances|
        invariant forall k | 0 <= k < i :: instances[k].mainDir.Some? && instances[k].mainDir != d
      {
        if instances[i].mainDir.None? {
          assert FirstStop(instances, d) == i;
          return Failure(NullPointerException);
        }
        if instances[i].mainDir == d {
          assert FirstStop(instances, d) == i;
          return Success(instances[i]);
        }
        i := i + 1;
      }
      assert FirstStop(instances, d) == |instances|;
      var factory := new ApplianceDirectoryFactory(d);
      instances := instances + [factory];
      r := Success(factory);
    }
  }
}
