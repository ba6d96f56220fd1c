/**
 * `ApplianceDirectory`: the directory that holds the files of exactly one appliance, named
 * after its make and model inside a parent directory. Creating the directory on disk is
 * abstracted by a `FileSystem` value that answers the questions the constructor asks.
 */
module Directories {
  import opened Wrappers
  import opened JavaInt
  import opened Appliances

  /** A `java.io.File`; `File.equals` compares paths, which is `==` here. */
  type File(==, !new)

  /** What the constructor learns from the file system. */
  datatype FileSystem = FileSystem(
    /** `File.isDirectory()` */
    isDirectory: File -> bool,
    /** `File.exists()` */
    fileExists: File -> bool,
    /** `new File(parent, name)` */
    child: (File, string) -> File,
    /** whether `createNewFile()` throws an `IOException` for this file */
    createFails: File -> bool)

  /** What a path names on disk. */
  datatype Entry = Missing | PlainFile | Folder

  /** What `exists()` and `isDirectory()` together say the file `f` is. */
  function EntryOf(fs: FileSystem, f: File): (e: Entry)
    ensures e == Missing <==> !fs.fileExists(f)
    ensures e == Folder <==> fs.fileExists(f) && fs.isDirectory(f)
  {
    if !fs.fileExists(f) then Missing else if fs.isDirectory(f) then Folder else PlainFile
  }

  /** `createNewFile()`: an empty plain file where nothing was; an existing path is kept. */
  function CreateNewFile(e: Entry): Entry
  {
    if e == Missing then PlainFile else e
  }

  /** `mkdir()`: a directory where nothing was; on an existing path it fails and changes nothing. */
  function Mkdir(e: Entry): Entry
  {
    if e == Missing then Folder else e
  }

  /**
   * What the constructor leaves at the appliance's path, as written: a missing path first
   * gets a plain file, which is not a directory, so `mkdir()` runs on a path that now
   * exists, fails, and its `false` is ignored.
   */
  function EntryAfterCreateAsWritten(e: Entry): (r: Entry)
    ensures r != Missing
    ensures e != Missing ==> r == e
  {
    if e == Missing then
      var made := CreateNewFile(e);
      if made != Folder then Mkdir(made) else made
    else e
  }

  /** A missing appliance path ends up as a plain file, not as a directory. */
  lemma CreateLeavesPlainFile()
    ensures EntryAfterCreateAsWritten(Missing) == PlainFile
  {
  }

  /**
   * What the constructor evidently means to leave at the path: a missing path becomes a
   * directory, and an existing one is kept.
   */
  function EntryAfterCreate(e: Entry): (r: Entry)
    ensures r.Folder? <==> !e.PlainFile?
    ensures e != Missing ==> r == e
  {
    if e == Missing then Mkdir(e) else e
  }

  /**
   * `getDirName`: the make, an underscore, then the model. The underscore is the first one
   * in the name whenever the make has none.
   */
  function DirName(make: string, model: string): (r: string)
    ensures |r| == |make| + 1 + |model|
    ensures r[..|make|] == make && r[|make|] == '_' && r[|make| + 1..] == model
  {
    make + "_" + model
  }

  /** The number of characters of `s` before its first underscore (`|s|` when it has none). */
  function FirstUnderscore(s: string): (i: nat)
    ensures i <= |s|
    ensures forall k | 0 <= k < i :: s[k] != '_'
    ensures i < |s| ==> s[i] == '_'
  {
    if s == [] || s[0] == '_' then 0 else 1 + FirstUnderscore(s[1..])
  }

  /** Makes without an underscore never share a directory name with another appliance. */
  lemma DirNameInjective(make1: string, model1: string, make2: string, model2: string)
    requires forall k | 0 <= k < |make1| :: make1[k] != '_'
    requires forall k | 0 <= k < |make2| :: make2[k] != '_'
    requires DirName(make1, model1) == DirName(make2, model2)
    ensures make1 == make2 && model1 == model2
  {
    var n := DirName(make1, model1);
    assert FirstUnderscore(n) == |make1| by { UnderscoreAt(n, |make1|); }
    assert FirstUnderscore(n) == |make2| by { UnderscoreAt(n, |make2|); }
  }

  /** An underscore preceded by none is the first one. */
  lemma UnderscoreAt(s: string, i: nat)
    requires i < |s| && s[i] == '_'
    requires forall k | 0 <= k < i :: s[k] != '_'
    ensures FirstUnderscore(s) == i
  {
  }

  /** With an underscore in the make, two different appliances can share a directory. */
  lemma DirNameCollision()
    ensures DirName("a_b", "c") == DirName("a", "b_c")
  {
  }

  class ApplianceDirectory {
    /** `mDirectory` */
    const directory: File
    /** `mAppliance` */
    const appliance: Appliance
    /** what the constructor leaves at `directory` */
    ghost const onDisk: Entry

    constructor (directory: File, appliance: Appliance, ghost onDisk: Entry)
      ensures this.directory == directory && this.appliance == appliance && this.onDisk == onDisk
    {
      this.directory := directory;
      this.appliance := appliance;
      this.onDisk := onDisk;
    }

    /**
     * The package-private constructor `ApplianceDirectory(app, parentDir)`: a missing parent
     * and then a missing appliance are `NullPointerException`s, a parent that is not a
     * directory is an `IllegalArgumentException`, and a failing `createNewFile` on a
     * directory that does not exist yet is an `IllegalStateException`. Otherwise the
     * directory is the child of the parent named by `getDirName`.
     */
    static method Create(app: Appliance?, parent: Option<File>, fs: FileSystem)
      returns (r: Result<ApplianceDirectory>)
      ensures parent.None? ==> r == Failure(NullPointerException)
      ensures parent.Some? && app == null ==> r == Failure(NullPointerException)
      ensures parent.Some? && app != null && !fs.isDirectory(parent.value) ==>
        r == Failure(IllegalArgumentException)
      ensures parent.Some? && app != null && fs.isDirectory(parent.value) ==>
        var dir := fs.child(parent.value, DirName(app.make, app.model));
        if !fs.fileExists(dir) && fs.createFails(dir) then r == Failure(IllegalStateException)
        else
          r.Success? && fresh(r.value) && r.value.appliance == app && r.value.directory == dir &&
          r.value.onDisk == EntryAfterCreate(EntryOf(fs, dir))
    {
      if parent.None? || app == null {
        return Failure(NullPointerException);
      }
      if !fs.isDirectory(parent.value) {
        return Failure(IllegalArgumentException);
      }
      var dir := fs.child(parent.value, DirName(app.make, app.model));
      if !fs.fileExists(dir) && fs.createFails(dir) {
        return Failure(IllegalStateException);
      }
      var d := new ApplianceDirectory(dir, app, EntryAfterCreate(EntryOf(fs, dir)));
      var _ := d.Sync();
      r := Success(d);
    }

    /** `represents(app)`: `Appliance` keeps `Object.equals`, so this is identity. */
    predicate Represents(app: Appliance?)
      ensures app == null ==> !Represents(app)
    {
      appliance == app
    }

    /** `sync()` has no body yet: it never reports an update. */
    function Sync(): (updated: bool)
      ensures !updated
    {
      false
    }

    /** `equals(o)` on another directory (or null): the same appliance. */
    predicate Equals(that: ApplianceDirectory?)
      ensures that == null ==> !Equals(that)
      ensures this == that ==> Equals(that)
    {
      that != null && appliance == that.appliance
    }

    /**
     * `hashCode()`: three times the appliance's identity hash, in `int` arithmetic. The
     * identity hash is whatever the runtime assigns, so it is a parameter.
     */
    function HashCode(identityHash: Appliance -> int): (r: int)
      ensures IsInt32(r)
      ensures (r - 3 * identityHash(appliance)) % TWO_32 == 0
    {
      Wrap(3 * identityHash(appliance))
    }
  }

  /** `equals` holds exactly when the other directory represents the same appliance. */
  lemma EqualsIffRepresents(d: ApplianceDirectory, e: ApplianceDirectory?)
    ensures d.Equals(e) <==> e != null && e.Represents(d.appliance)
  {
  }

  /** `equals` is symmetric. */
  lemma EqualsSymmetric(d: ApplianceDirectory, e: ApplianceDirectory)
    ensures d.Equals(e) <==> e.Equals(d)
  {
  }

  /** Directories that are `equals` have the same `hashCode`, whatever the identity hashes. */
  lemma EqualDirectoriesHashEqually(d: ApplianceDirectory, e: ApplianceDirectory, identityHash: Appliance -> int)
    requires d.Equals(e)
    ensures d.HashCode(identityHash) == e.HashCode(identityHash)
  {
  }
}
