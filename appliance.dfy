/**
 * `Appliance`: an appliance known by its make and model, with a kind, an optional nickname
 * and the path of its reference image. The source never overrides `equals`, so appliances
 * are compared by reference.
 */
module Appliances {
  import opened Wrappers
  import opened ApplianceTypes

  /** A `java.nio.file.Path` supplied by the caller. */
  type Path(==, !new)

  class Appliance {
    const make: string
    const model: string
    /** `mType` */
    const kind: ApplianceType
    /** `mNickName`: null until set. */
    var nickName: Option<string>
    /** `mRefImagePath` */
    var referenceImagePath: Option<Path>

    /** The constructor once its arguments are known to be present. */
    constructor (make: string, model: string, kind: ApplianceType)
      ensures this.make == make && this.model == model && this.kind == kind
      ensures nickName.None? && referenceImagePath.None?
    {
      this.make := make;
      this.model := model;
      this.kind := kind;
      nickName := None;
      referenceImagePath := None;
    }

    /** `new Appliance(make, model, type)`: a null argument is an `IllegalArgumentException`. */
    static method Create(make: Option<string>, model: Option<string>, kind: Option<ApplianceType>)
      returns (r: Result<Appliance>)
      ensures make.None? || model.None? || kind.None? ==> r == Failure(IllegalArgumentException)
      ensures make.Some? && model.Some? && kind.Some? ==>
        r.Success? && fresh(r.value) && r.value.make == make.value &&
        r.value.model == model.value && r.value.kind == kind.value &&
        r.value.nickName.None? && r.value.referenceImagePath.None?
    {
      if make.None? || model.None? || kind.None? {
        return Failure(IllegalArgumentException);
      }
      var a := new Appliance(make.value, model.value, kind.value);
      r := Success(a);
    }

    /** `new Appliance(make, model)`: as above, of kind `UNKNOWN`. */
    static method CreateOfUnknownKind(make: Option<string>, model: Option<string>)
      returns (r: Result<Appliance>)
      ensures make.None? || model.None? ==> r == Failure(IllegalArgumentException)
      ensures make.Some? && model.Some? ==>
        r.Success? && fresh(r.value) && r.value.make == make.value &&
        r.value.model == model.value && r.value.kind == UNKNOWN &&
        r.value.nickName.None? && r.value.referenceImagePath.None?
    {
      r := Create(make, model, Some(UNKNOWN));
    }

    /**
     * `getNickName()`: the nickname when one is set; otherwise the make and the model,
     * separated by one space.
     */
    function GetNickName(): (n: string)
      reads this
      ensures nickName.Some? ==> n == nickName.value
      ensures nickName.None? ==>
        |n| == |make| + 1 + |model| && n[..|make|] == make && n[|make|] == ' ' &&
        n[|make| + 1..] == model
    {
      if nickName.None? then make + " " + model else nickName.value
    }

    /**
     * `setNickName(nickName)` as written: it assigns the nickname field to itself, so
     * neither the field nor `getNickName()` changes, whatever the argument.
     */
    method SetNickNameAsWritten(n: Option<string>)
      modifies this
      ensures nickName == old(nickName) && referenceImagePath == old(referenceImagePath)
      ensures GetNickName() == old(GetNickName())
    {
      nickName := nickName;
    }

    /**
     * `setNickName(nickName)` as its documentation describes it: the client's nickname is
     * kept, and `getNickName()` reports it from now on (a null one restores the default).
     */
    method SetNickName(n: Option<string>)
      modifies this
      ensures nickName == n && referenceImagePath == old(referenceImagePath)
      ensures n.Some? ==> GetNickName() == n.value
      ensures n.None? ==> GetNickName() == make + " " + model
    {
      nickName := n;
    }

    /** `setReferenceImagePath(p)`: `getReferenceImagePath()` returns `p` from now on. */
    method SetReferenceImagePath(p: Option<Path>)
      modifies this
      ensures referenceImagePath == p && nickName == old(nickName)
    {
      referenceImagePath := p;
    }
  }

  /** Without a nickname, the one reported starts with the make and ends with the model. */
  lemma DefaultNickNameNamesTheAppliance(a: Appliance)
    requires a.nickName.None?
    ensures a.make <= a.GetNickName()
    ensures a.GetNickName()[|a.make| + 1..] == a.model
  {
  }

  /**
   * A nickname given to `setNickName` as written is lost: an appliance made by "Acme" as
   * model "M1", nicknamed "Oven", still reports "Acme M1".
   */
  method NickNameIsLost() returns (requested: string, reported: string)
    ensures requested == "Oven" && reported == "Acme M1"
    ensures reported != requested
  {
    var a := new Appliance("Acme", "M1", UNKNOWN);
    requested := "Oven";
    a.SetNickNameAsWritten(Some(requested));
    reported := a.GetNickName();
  }

  /** With the intended `setNickName`, the nickname set is the one reported. */
  method NickNameIsKept() returns (requested: string, reported: string)
    ensures requested == "Oven" && reported == requested
  {
    var a := new Appliance("Acme", "M1", UNKNOWN);
    requested := "Oven";
    a.SetNickName(Some(requested));
    reported := a.GetNickName();
  }
}
