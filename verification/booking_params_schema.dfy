/**
 * `bookingParamsSchema`: the object schema for a booking lookup's path
 * parameters. Every field is checked and every failing field contributes
 * one issue, in field order.
 */
module BookingParamsSchema {
  import opened Wrappers
  import opened JsValues
  import opened ObjectIds
  import opened BookingTypes

  const InvalidProjectIdMessage: string := "Invalid project ID"
  const InvalidBookingIdMessage: string := "Invalid booking ID"

  datatype Field = ProjectIdField | BookingTypeField | IdField

  datatype ParamIssue =
    | Required(field: Field)          // a required field is `undefined`
    | NotAString(field: Field)        // a field of the wrong JavaScript type
    | InvalidProjectId                // projectId fails the 24-hex pattern
    | InvalidEnumValue                // bookingType is not a family name
    | InvalidBookingId                // id fails the 24-hex pattern

  /**
   * The text the schema attaches to an issue: its own messages for the two
   * id patterns; zod's default text for the other issues is not modelled.
   */
  function IssueMessage(issue: ParamIssue): (m: Option<string>)
    ensures issue == InvalidProjectId ==> m == Some("Invalid project ID")
    ensures issue == InvalidBookingId ==> m == Some("Invalid booking ID")
    ensures m.Some? <==> issue == InvalidProjectId || issue == InvalidBookingId
  {
    match issue
    case InvalidProjectId => Some(InvalidProjectIdMessage)
    case InvalidBookingId => Some(InvalidBookingIdMessage)
    case _ => None
  }

  /** The raw parameter object, one JavaScript value per key. */
  datatype RawParams = RawParams(projectId: JsValue, bookingType: JsValue, id: JsValue)

  /** The parsed parameters. */
  datatype BookingParams = BookingParams(projectId: string, bookingType: Option<Family>, id: Option<string>)

  function ProjectIdIssues(v: JsValue): seq<ParamIssue> {
    match v
    case Undefined => [Required(ProjectIdField)]
    case Str(s) => if IsObjectIdString(s) then [] else [InvalidProjectId]
    case _ => [NotAString(ProjectIdField)]
  }

  function BookingTypeIssues(v: JsValue): seq<ParamIssue> {
    match v
    case Undefined => []
    case Str(s) => if IsValidBookingType(s) then [] else [InvalidEnumValue]
    case _ => [NotAString(BookingTypeField)]
  }

  function IdIssues(v: JsValue): seq<ParamIssue> {
    match v
    case Undefined => []
    case Str(s) => if IsObjectIdString(s) then [] else [InvalidBookingId]
    case _ => [NotAString(IdField)]
  }

  /** A required string field holding a 24-hex id. */
  predicate RequiredHexId(v: JsValue) {
    v.Str? && |v.s| == 24 && forall i :: 0 <= i < |v.s| ==> IsHexDigit(v.s[i])
  }

  /** An optional field: absent, or a string satisfying `ok`. */
  predicate OptionalString(v: JsValue, ok: string -> bool) {
    v.Undefined? || (v.Str? && ok(v.s))
  }

  /** Parses the parameter object. */
  function ValidateBookingParams(raw: RawParams): (r: Result<BookingParams, seq<ParamIssue>>)
    ensures r.Success? <==>
      && RequiredHexId(raw.projectId)
      && OptionalString(raw.bookingType, t => t in ["shipment", "waste", "resource"])
      && OptionalString(raw.id, s => |s| == 24 && forall i :: 0 <= i < |s| ==> IsHexDigit(s[i]))
    ensures r.Success? ==>
      && r.value.projectId == raw.projectId.s
      && (r.value.bookingType.Some? <==> raw.bookingType.Str?)
      && (r.value.bookingType.Some? ==> FamilyName(r.value.bookingType.value) == raw.bookingType.s)
      && (r.value.id.Some? <==> raw.id.Str?)
      && (r.value.id.Some? ==> r.value.id.value == raw.id.s)
    ensures r.Failure? ==> 1 <= |r.error| <= 3
    ensures r.Failure? ==> (Required(ProjectIdField) in r.error <==> raw.projectId.Undefined?)
    ensures r.Failure? ==> (InvalidBookingId in r.error <==> raw.id.Str? && !IsObjectIdString(raw.id.s))
    ensures r.Failure? ==> (InvalidProjectId in r.error <==> raw.projectId.Str? && !IsObjectIdString(raw.projectId.s))
    ensures r.Failure? ==> (InvalidEnumValue in r.error <==> raw.bookingType.Str? && !IsValidBookingType(raw.bookingType.s))
    ensures r.Failure? ==> (NotAString(ProjectIdField) in r.error <==> !(raw.projectId.Undefined? || raw.projectId.Str?))
    ensures r.Failure? ==> (NotAString(BookingTypeField) in r.error <==> !(raw.bookingType.Undefined? || raw.bookingType.Str?))
    ensures r.Failure? ==> (NotAString(IdField) in r.error <==> !(raw.id.Undefined? || raw.id.Str?))
  {
    var issues := ProjectIdIssues(raw.projectId) + BookingTypeIssues(raw.bookingType) + IdIssues(raw.id);
    if issues == [] then
      Success(BookingParams(
        raw.projectId.s,
        if raw.bookingType.Str? then ParseFamily(raw.bookingType.s) else None,
        if raw.id.Str? then Some(raw.id.s) else None))
    else
      Failure(issues)
  }

  /**
   * The enum accepts exactly the names `isValidBookingType` accepts: with
   * the other fields valid, a string booking type parses iff it is valid.
   */
  lemma EnumAgreesWithIsValidBookingType(projectId: string, t: string)
    requires IsObjectIdString(projectId)
    ensures ValidateBookingParams(RawParams(Str(projectId), Str(t), Undefined)).Success?
        <==> IsValidBookingType(t)
  {
  }
}
