/** The closed set of booking families and the check for a family name. */
module BookingTypes {
  import opened Wrappers

  /** `BookingType`: one of the three booking record families. */
  datatype Family = Shipment | Waste | Resource

  /** The wire name of each family. */
  function FamilyName(f: Family): string {
    match f
    case Shipment => "shipment"
    case Waste => "waste"
    case Resource => "resource"
  }

  /** The list `isValidBookingType` searches. */
  const AcceptedNames: seq<string> := ["shipment", "waste", "resource"]

  /** `isValidBookingType`: `Array.prototype.includes`, i.e. strict string equality. */
  predicate IsValidBookingType(t: string) {
    t in AcceptedNames
  }

  /** The family a name stands for, if it names one. */
  function ParseFamily(t: string): (r: Option<Family>)
    ensures r.Some? <==> IsValidBookingType(t)
    ensures r.Some? ==> FamilyName(r.value) == t
  {
    if t == "shipment" then Some(Shipment)
    else if t == "waste" then Some(Waste)
    else if t == "resource" then Some(Resource)
    else None
  }

  /** The accepted strings are exactly the names of the `BookingType` union. */
  lemma AcceptedIffFamilyName(t: string)
    ensures IsValidBookingType(t) <==> exists f: Family :: FamilyName(f) == t
  {
    if IsValidBookingType(t) {
      assert FamilyName(ParseFamily(t).value) == t;
    }
  }

  /** Name and parse are inverse. */
  lemma FamilyNameRoundTrip(f: Family)
    ensures ParseFamily(FamilyName(f)) == Some(f)
  {
  }

  /**
   * The check is case-sensitive: every accepted string is spelled in
   * lower-case letters only, so "Shipment" is refused.
   */
  lemma AcceptedNamesAreLowerCase(t: string)
    requires IsValidBookingType(t)
    ensures forall i :: 0 <= i < |t| ==> 'a' <= t[i] <= 'z'
  {
    var f := ParseFamily(t).value;
    match f
    case Shipment =>
    case Waste =>
    case Resource =>
  }

  /** No accepted name extends another one: "" and "shipments" are refused. */
  lemma NoAcceptedNameExtendsAnother(t: string, suffix: string)
    requires IsValidBookingType(t) && suffix != []
    ensures !IsValidBookingType(t + suffix)
    ensures !IsValidBookingType("")
  {
    var u := t + suffix;
    assert u[..|t|] == t;
    if t == "waste" {
      assert "shipment"[0] != t[0] && "resource"[0] != t[0];
      assert u[0] == t[0];
    }
  }
}
