/**
 * The bookings service: validates the three required parameters, looks
 * the project up, decides from its settings which families to include and
 * in which colours, and concatenates the family pipelines (`$unionWith`)
 * in the order shipment, waste, resource.
 */
module Bookings {
  import opened Wrappers
  import opened JsValues
  import opened ObjectIds
  import opened Records
  import opened BookingTypes
  import opened MatchConditions
  import opened Lookups
  import opened Projection
  import opened FamilyPipelines

  /** `GetBookingsParams`; the filters are as the route parsed them. */
  datatype BookingsParams = BookingsParams(
    projectId: string,
    startDate: string,
    endDate: string,
    zones: Option<seq<Id>>,
    subProjects: Option<seq<Id>>,
    contractors: Option<seq<Id>>,
    resources: Option<seq<Id>>,
    requestStatus: Option<string>,
    isConfirmed: Option<bool>)

  /** An error thrown inside the service and turned into its message. */
  datatype Thrown =
    | InvalidProjectObjectId   // `new ObjectId` rejects the project id
    | ObjectIdConversion       // a `$toObjectId` stage fails during the aggregation

  /** The two failures the service returns itself, and the thrown ones it catches. */
  datatype BookingError = MissingParameters | ProjectNotFound | Caught(cause: Thrown)

  const MissingParametersMessage: string := "Missing required parameters"
  const ProjectNotFoundMessage: string := "Project not found"

  const DefaultWasteColor: string := "#8CE542"
  const DefaultResourceColor: string := "#428AE5"

  /** The text of a returned failure; a caught one carries its library's message. */
  function ErrorMessage(e: BookingError): (m: Option<string>)
    ensures m.Some? <==> !e.Caught?
    ensures e == MissingParameters ==> m == Some("Missing required parameters")
    ensures e == ProjectNotFound ==> m == Some("Project not found")
  {
    match e
    case MissingParameters => Some(MissingParametersMessage)
    case ProjectNotFound => Some(ProjectNotFoundMessage)
    case Caught(_) => None
  }

  /** Shipments are included unless `settings.shipment_module` is exactly `false`. */
  predicate ShipmentEnabled(p: Project) {
    p.settings.None? || p.settings.value.shipmentModule != Bool(false)
  }

  /** Waste bookings are included only when `settings.waste_module` is truthy. */
  predicate WasteEnabled(p: Project) {
    p.settings.Some? && Truthy(p.settings.value.wasteModule)
  }

  /** The waste colour: the configured one when non-empty, never empty. */
  function WasteColor(p: Project): (c: string)
    ensures c != ""
    ensures c == DefaultWasteColor || (p.settings.Some? && p.settings.value.wasteBookingColor == Some(c))
    ensures p.settings.Some? && TruthyString(p.settings.value.wasteBookingColor) ==> Some(c) == p.settings.value.wasteBookingColor
  {
    OrElse(if p.settings.Some? then p.settings.value.wasteBookingColor else None, DefaultWasteColor)
  }

  /** The resource colour: the configured one when non-empty, never empty. */
  function ResourceColor(p: Project): (c: string)
    ensures c != ""
    ensures c == DefaultResourceColor || (p.settings.Some? && p.settings.value.resourceBookingColor == Some(c))
    ensures p.settings.Some? && TruthyString(p.settings.value.resourceBookingColor) ==> Some(c) == p.settings.value.resourceBookingColor
  {
    OrElse(if p.settings.Some? then p.settings.value.resourceBookingColor else None, DefaultResourceColor)
  }

  /** The families queried, in union order. */
  function EnabledFamilies(p: Project): (fs: seq<Family>)
    ensures Shipment in fs <==> ShipmentEnabled(p)
    ensures Waste in fs <==> WasteEnabled(p)
    ensures Resource in fs && fs[|fs| - 1] == Resource
    ensures forall i, j :: 0 <= i < j < |fs| ==> UnionPosition(fs[i]) < UnionPosition(fs[j])
  {
    (if ShipmentEnabled(p) then [Shipment] else [])
    + (if WasteEnabled(p) then [Waste] else [])
    + [Resource]
  }

  /** Where a family's rows sit in the union. */
  function UnionPosition(f: Family): nat {
    match f
    case Shipment => 0
    case Waste => 1
    case Resource => 2
  }

  /** The query every family receives; `isConfirmed` defaults to `true`. */
  function QueryOf(params: BookingsParams, parseDate: string -> int): Query {
    Query(
      params.projectId, parseDate(params.startDate), parseDate(params.endDate),
      Filters(params.zones, params.subProjects, params.contractors, params.resources,
              params.requestStatus, params.isConfirmed.GetOr(true)))
  }

  /** One family's pipeline with its colour. */
  function FamilyRows(store: Store, p: Project, family: Family, q: Query): Result<seq<Row>, LookupError> {
    match family
    case Shipment => ShipmentRows(store, q)
    case Waste => FlatRows(store, Waste, q, WasteColor(p))
    case Resource => FlatRows(store, Resource, q, ResourceColor(p))
  }

  function FamilyStage(store: Store, p: Project, q: Query): Family -> Result<seq<Row>, LookupError> {
    (f: Family) => FamilyRows(store, p, f, q)
  }

  /** The aggregation with its `$unionWith` stages. */
  function UnionRows(store: Store, p: Project, q: Query): Result<seq<Row>, LookupError> {
    CollectAll(EnabledFamilies(p), FamilyStage(store, p, q))
  }

  /** A required parameter is missing when it is the empty string. */
  predicate MissingRequired(params: BookingsParams) {
    params.projectId == "" || params.startDate == "" || params.endDate == ""
  }

  /** `getBookings`; the project is found through the id's canonical spelling. */
  function GetBookings(store: Store, params: BookingsParams, parseDate: string -> int): (r: Result<seq<Row>, BookingError>)
    ensures r == Failure(MissingParameters) <==> MissingRequired(params)
    ensures r == Failure(Caught(InvalidProjectObjectId)) <==>
      !MissingRequired(params) && !IsObjectIdString(params.projectId)
    ensures r == Failure(ProjectNotFound) <==>
      !MissingRequired(params) && IsObjectIdString(params.projectId)
      && CanonicalId(params.projectId) !in store.projects
    ensures r.Success? || r == Failure(Caught(ObjectIdConversion)) <==>
      !MissingRequired(params) && IsObjectIdString(params.projectId)
      && CanonicalId(params.projectId) in store.projects
  {
    if MissingRequired(params) then Failure(MissingParameters)
    else if !IsObjectIdString(params.projectId) then Failure(Caught(InvalidProjectObjectId))
    else
      var key := CanonicalId(params.projectId);
      if key !in store.projects then Failure(ProjectNotFound)
      else
        match UnionRows(store, store.projects[key], QueryOf(params, parseDate))
        case Failure(_) => Failure(Caught(ObjectIdConversion))
        case Success(rows) => Success(rows)
  }

  // ---------------------------------------------------------------------
  // Properties of the union.

  /** Every row of a family's pipeline carries that family's type. */
  lemma FamilyRowsTyped(store: Store, p: Project, family: Family, q: Query, row: Row)
    requires FamilyRows(store, p, family, q).Success? && row in FamilyRows(store, p, family, q).value
    ensures row.bookingType == family
  {
    match family
    case Shipment => ShipmentRowsSound(store, q, row);
    case Waste => FlatRowsSound(store, Waste, q, WasteColor(p), row);
    case Resource => FlatRowsSound(store, Resource, q, ResourceColor(p), row);
  }

  /**
   * Rows come grouped by family in the order of the families; no family
   * contributes rows that another family's pipeline produced.
   */
  lemma {:induction false} UnionGrouped(store: Store, p: Project, fs: seq<Family>, q: Query)
    requires forall i, j :: 0 <= i < j < |fs| ==> UnionPosition(fs[i]) < UnionPosition(fs[j])
    requires CollectAll(fs, FamilyStage(store, p, q)).Success?
    ensures forall row :: row in CollectAll(fs, FamilyStage(store, p, q)).value ==> row.bookingType in fs
    ensures var rows := CollectAll(fs, FamilyStage(store, p, q)).value;
      forall i, j :: 0 <= i < j < |rows| ==> UnionPosition(rows[i].bookingType) <= UnionPosition(rows[j].bookingType)
  {
    if fs != [] {
      var stage := FamilyStage(store, p, q);
      var head := FamilyRows(store, p, fs[0], q).value;
      var tail := CollectAll(fs[1..], stage).value;
      var rows := CollectAll(fs, stage).value;
      assert rows == head + tail;
      UnionGrouped(store, p, fs[1..], q);
      forall row | row in head ensures row.bookingType == fs[0] {
        FamilyRowsTyped(store, p, fs[0], q, row);
      }
      forall row | row in tail ensures UnionPosition(fs[0]) < UnionPosition(row.bookingType) {
        var k :| 0 <= k < |fs[1..]| && fs[1..][k] == row.bookingType;
        assert fs[k + 1] == row.bookingType;
      }
      forall i, j | 0 <= i < j < |rows|
        ensures UnionPosition(rows[i].bookingType) <= UnionPosition(rows[j].bookingType)
      {
        if j < |head| {
          assert rows[i] in head && rows[j] in head;
        } else if i < |head| {
          assert rows[i] in head && rows[j] == tail[j - |head|] && tail[j - |head|] in tail;
        } else {
          assert rows[i] == tail[i - |head|] && rows[j] == tail[j - |head|];
        }
      }
    }
  }

  /**
   * A successful answer lists shipments first, then waste, then resource
   * bookings, and only families the project's settings enable.
   */
  lemma BookingsInUnionOrder(store: Store, params: BookingsParams, parseDate: string -> int)
    requires GetBookings(store, params, parseDate).Success?
    ensures var rows := GetBookings(store, params, parseDate).value;
      var p := store.projects[CanonicalId(params.projectId)];
      && (forall row :: row in rows ==> row.bookingType in EnabledFamilies(p))
      && (forall i, j :: 0 <= i < j < |rows| ==> UnionPosition(rows[i].bookingType) <= UnionPosition(rows[j].bookingType))
  {
    var p := store.projects[CanonicalId(params.projectId)];
    UnionGrouped(store, p, EnabledFamilies(p), QueryOf(params, parseDate));
  }

  /** A project whose `shipment_module` is exactly `false` shows no shipment. */
  lemma ShipmentModuleOffHidesShipments(store: Store, params: BookingsParams, parseDate: string -> int)
    requires GetBookings(store, params, parseDate).Success?
    requires store.projects[CanonicalId(params.projectId)].settings.Some?
    requires store.projects[CanonicalId(params.projectId)].settings.value.shipmentModule == Bool(false)
    ensures forall row :: row in GetBookings(store, params, parseDate).value ==> row.bookingType != Shipment
  {
    BookingsInUnionOrder(store, params, parseDate);
  }

  /** Waste bookings appear only when `waste_module` is truthy; absent settings hide them. */
  lemma WasteModuleOffHidesWaste(store: Store, params: BookingsParams, parseDate: string -> int)
    requires GetBookings(store, params, parseDate).Success?
    requires !WasteEnabled(store.projects[CanonicalId(params.projectId)])
    ensures forall row :: row in GetBookings(store, params, parseDate).value ==> row.bookingType != Waste
  {
    BookingsInUnionOrder(store, params, parseDate);
  }

  /**
   * Resource bookings are always queried: every selected resource booking
   * of the project is in a successful answer, in the resource colour.
   */
  lemma ResourceBookingsAlwaysIncluded(store: Store, params: BookingsParams, parseDate: string -> int, d: FlatDoc)
    requires GetBookings(store, params, parseDate).Success?
    requires d in store.resourceBookings && Selected(Resource, QueryOf(params, parseDate), FlatRecord(d))
    ensures exists row ::
              && row in GetBookings(store, params, parseDate).value
              && DescribesBooking(row, Resource, d, ResourceColor(store.projects[CanonicalId(params.projectId)]))
  {
    var p := store.projects[CanonicalId(params.projectId)];
    var q := QueryOf(params, parseDate);
    CollectAllSpec(EnabledFamilies(p), FamilyStage(store, p, q));
    assert FamilyRows(store, p, Resource, q).Success?;
    FlatRowsComplete(store, Resource, q, ResourceColor(p), d);
  }

  /**
   * With the shipment module on, every project leg of a selected shipment
   * is in a successful answer, showing its zone.
   */
  lemma EnabledShipmentLegsIncluded(store: Store, params: BookingsParams, parseDate: string -> int, s: ShipmentDoc, i: nat)
    requires GetBookings(store, params, parseDate).Success?
    requires ShipmentEnabled(store.projects[CanonicalId(params.projectId)])
    requires s in store.shipments && Selected(Shipment, QueryOf(params, parseDate), ShipmentRecord(s))
    requires i < |s.legs| && s.legs[i].place.projectId == Some(params.projectId)
    ensures exists row ::
              && row in GetBookings(store, params, parseDate).value
              && DescribesLeg(row, s, i) && ShowsZone(store, s.legs[i], row)
  {
    var p := store.projects[CanonicalId(params.projectId)];
    var q := QueryOf(params, parseDate);
    CollectAllSpec(EnabledFamilies(p), FamilyStage(store, p, q));
    assert FamilyRows(store, p, Shipment, q).Success?;
    ShipmentRowsComplete(store, q, s, i);
  }

  /** With the waste module on, every selected waste booking is in a successful answer, in the waste colour. */
  lemma EnabledWasteIncluded(store: Store, params: BookingsParams, parseDate: string -> int, d: FlatDoc)
    requires GetBookings(store, params, parseDate).Success?
    requires WasteEnabled(store.projects[CanonicalId(params.projectId)])
    requires d in store.wastes && Selected(Waste, QueryOf(params, parseDate), FlatRecord(d))
    ensures exists row ::
              && row in GetBookings(store, params, parseDate).value
              && DescribesBooking(row, Waste, d, WasteColor(store.projects[CanonicalId(params.projectId)]))
  {
    var p := store.projects[CanonicalId(params.projectId)];
    var q := QueryOf(params, parseDate);
    CollectAllSpec(EnabledFamilies(p), FamilyStage(store, p, q));
    assert FamilyRows(store, p, Waste, q).Success?;
    FlatRowsComplete(store, Waste, q, WasteColor(p), d);
  }

  /**
   * Every row of a successful answer comes from a selected booking of an
   * enabled family: a project leg of a selected shipment, or a selected
   * waste or resource booking shown in its family's colour.
   */
  lemma GetBookingsSound(store: Store, params: BookingsParams, parseDate: string -> int, row: Row)
    requires GetBookings(store, params, parseDate).Success?
    requires row in GetBookings(store, params, parseDate).value
    ensures var p := store.projects[CanonicalId(params.projectId)];
      var q := QueryOf(params, parseDate);
      match row.bookingType
      case Shipment =>
        && ShipmentEnabled(p)
        && exists s, i ::
             && s in store.shipments && Selected(Shipment, q, ShipmentRecord(s))
             && 0 <= i < |s.legs| && s.legs[i].place.projectId == Some(q.projectId)
             && DescribesLeg(row, s, i)
      case Waste =>
        && WasteEnabled(p)
        && exists d :: d in store.wastes && Selected(Waste, q, FlatRecord(d)) && DescribesBooking(row, Waste, d, WasteColor(p))
      case Resource =>
        exists d :: d in store.resourceBookings && Selected(Resource, q, FlatRecord(d)) && DescribesBooking(row, Resource, d, ResourceColor(p))
  {
    var p := store.projects[CanonicalId(params.projectId)];
    var q := QueryOf(params, parseDate);
    var fs := EnabledFamilies(p);
    CollectAllSpec(fs, FamilyStage(store, p, q));
    var f :| f in fs && FamilyRows(store, p, f, q).Success? && row in FamilyRows(store, p, f, q).value;
    FamilyRowsTyped(store, p, f, q, row);
    match f
    case Shipment => ShipmentRowsSound(store, q, row);
    case Waste => FlatRowsSound(store, Waste, q, WasteColor(p), row);
    case Resource => FlatRowsSound(store, Resource, q, ResourceColor(p), row);
  }

  /** The answer fails during the aggregation exactly when some enabled family's lookups fail. */
  lemma ConversionFailureIsSomeFamily(store: Store, params: BookingsParams, parseDate: string -> int)
    requires !MissingRequired(params) && IsObjectIdString(params.projectId)
    requires CanonicalId(params.projectId) in store.projects
    ensures var p := store.projects[CanonicalId(params.projectId)];
      GetBookings(store, params, parseDate).Failure? <==>
        exists f :: f in EnabledFamilies(p) && FamilyRows(store, p, f, QueryOf(params, parseDate)).Failure?
  {
    var p := store.projects[CanonicalId(params.projectId)];
    CollectAllSpec(EnabledFamilies(p), FamilyStage(store, p, QueryOf(params, parseDate)));
  }
}
