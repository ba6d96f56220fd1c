/**
 * `ApplianceType`: the kinds of appliance the reader knows, their upper-case names, and the
 * case-insensitive lookup from a name back to a kind.
 *
 * Case conversion is modelled for the ASCII letters only, which is all the constant names
 * contain; Java's full Unicode case mapping is not part of this model.
 */
module ApplianceTypes {
  import opened Wrappers

  datatype ApplianceType = MICROWAVE | OTHER | UNKNOWN

  /** `values()`: the constants in declaration order. */
  function Values(): seq<ApplianceType>
  {
    [MICROWAVE, OTHER, UNKNOWN]
  }

  /** The string each constant passes to the enum constructor. */
  function DeclaredName(t: ApplianceType): string
  {
    match t
    case MICROWAVE => "MICROWAVE"
    case OTHER => "OTHER"
    case UNKNOWN => "UNKNOWN"
  }

  /** `Character.toUpperCase` on the ASCII letters. */
  function UpperAscii(c: char): char
  {
    if 'a' <= c <= 'z' then (c as int - 32) as char else c
  }

  /** `String.toUpperCase()`: every character upper-cased, in place. */
  function UpperCase(s: string): (r: string)
    ensures |r| == |s| && forall i :: 0 <= i < |s| ==> r[i] == UpperAscii(s[i])
  {
    if s == [] then [] else [UpperAscii(s[0])] + UpperCase(s[1..])
  }

  /** `String.equalsIgnoreCase`: the same length, and the same character after upper-casing. */
  predicate EqualsIgnoreCase(a: string, b: string)
  {
    |a| == |b| && forall i :: 0 <= i < |a| ==> UpperAscii(a[i]) == UpperAscii(b[i])
  }

  /** `toString()`: the name given to the constructor, upper-cased there. */
  function ToString(t: ApplianceType): (r: string)
    ensures r == DeclaredName(t)
  {
    UpperCaseOfUpper(DeclaredName(t));
    UpperCase(DeclaredName(t))
  }

  /** A string without lower-case ASCII letters is its own upper case. */
  lemma {:induction false} UpperCaseOfUpper(s: string)
    requires forall i :: 0 <= i < |s| ==> !('a' <= s[i] <= 'z')
    ensures UpperCase(s) == s
  {
    if s != [] {
      UpperCaseOfUpper(s[1..]);
    }
  }

  /** No two constants have names that match ignoring case. */
  lemma NamesDistinct(t: ApplianceType, u: ApplianceType)
    requires EqualsIgnoreCase(ToString(t), ToString(u))
    ensures t == u
  {
  }

  /** `values()` lists every constant. */
  lemma ValuesComplete()
    ensures forall t :: t in Values()
  {
    forall t
      ensures t in Values()
    {
      match t
      case MICROWAVE => assert Values()[0] == t;
      case OTHER => assert Values()[1] == t;
      case UNKNOWN => assert Values()[2] == t;
    }
  }

  /** The first constant of `ts` whose name matches `s` ignoring case, if any. */
  function Find(s: string, ts: seq<ApplianceType>): (r: Option<ApplianceType>)
    ensures r.Some? ==> r.value in ts && EqualsIgnoreCase(s, ToString(r.value))
    ensures r.None? ==> forall t | t in ts :: !EqualsIgnoreCase(s, ToString(t))
  {
    if ts == [] then None
    else if EqualsIgnoreCase(s, ToString(ts[0])) then Some(ts[0])
    else Find(s, ts[1..])
  }

  /**
   * `getType(stringRep)`: null is refused with `NullPointerException`; otherwise the
   * constant whose name matches ignoring case, and `OTHER` when none does.
   */
  function GetType(s: Option<string>): (r: Result<ApplianceType>)
    ensures s.None? <==> r == Failure(NullPointerException)
    ensures s.Some? ==> r.Success?
    ensures s.Some? ==> forall t :: EqualsIgnoreCase(s.value, ToString(t)) ==> r.value == t
    ensures s.Some? && (forall t :: !EqualsIgnoreCase(s.value, ToString(t))) ==> r.value == OTHER
  {
    if s.None? then Failure(NullPointerException)
    else
      var found := Find(s.value, Values());
      if found.Some? then
        forall t | EqualsIgnoreCase(s.value, ToString(t))
          ensures t == found.value
        {
          EqualsIgnoreCaseTransitive(ToString(t), s.value, ToString(found.value));
          NamesDistinct(t, found.value);
        }
        Success(found.value)
      else
        ValuesComplete();
        Success(OTHER)
  }

  /** Matching ignoring case is symmetric and transitive. */
  lemma EqualsIgnoreCaseTransitive(a: string, b: string, c: string)
    requires EqualsIgnoreCase(b, a) && EqualsIgnoreCase(b, c)
    ensures EqualsIgnoreCase(a, c)
  {
  }

  /** Every constant is found again from its own name. */
  lemma GetTypeOfToString(t: ApplianceType)
    ensures GetType(Some(ToString(t))) == Success(t)
  {
  }

  /** Names that match ignoring case are looked up to the same constant. */
  lemma GetTypeIgnoresCase(a: string, b: string)
    requires EqualsIgnoreCase(a, b)
    ensures GetType(Some(a)) == GetType(Some(b))
  {
  }

  /** Upper-casing a name does not change what it is looked up to. */
  lemma GetTypeOfUpperCase(s: string)
    ensures GetType(Some(UpperCase(s))) == GetType(Some(s))
  {
    var u := UpperCase(s);
    assert forall i :: 0 <= i < |u| ==> UpperAscii(u[i]) == UpperAscii(s[i]);
    GetTypeIgnoresCase(u, s);
  }
}
