/**
 * The stored documents the booking engine reads. Identifiers are opaque
 * strings; collections keyed by `_id` are maps from the id's canonical
 * (lower-case) hex spelling to the document. A field that may be missing or
 * null is an `Option`; a missing array is the empty sequence, which every
 * stage treats alike.
 */
module Records {
  import opened Wrappers
  import opened JsValues

  type Id = string

  /** `date_range` of a flat booking or a shipment leg. */
  datatype DateRange = DateRange(from: int, to: int, isAllDay: bool)

  /**
   * The fields the window and positional filters test: on a flat booking
   * they are the booking's own, on a shipment they belong to each leg.
   */
  datatype Placement = Placement(
    projectId: Option<Id>,
    window: DateRange,
    zoneId: Option<Id>,
    subProjectId: Option<Id>,
    resources: seq<Id>)

  /** Booking-level fields shared by the three families. */
  datatype Header = Header(
    id: Id,
    info: Option<string>,
    contractorId: Option<Id>,
    responsiblePerson: Option<string>,
    requestStatus: Option<string>,
    isDeleted: Option<bool>,
    isConfirmed: Option<bool>)

  /** One sub-journey of a shipment. */
  datatype Leg = Leg(place: Placement, shipmentStatus: Option<string>, direction: Option<string>)

  /** A shipment booking with its ordered legs. */
  datatype ShipmentDoc = ShipmentDoc(
    header: Header,
    legs: seq<Leg>,
    supplierId: Option<Id>,
    isSmallParcel: Option<bool>)

  /** The waste-only fields of a flat booking. */
  datatype WasteFields = WasteFields(status: Option<string>, managementType: Option<string>, service: Option<string>)

  /** A waste or resource booking: one window and one reference set. */
  datatype FlatDoc = FlatDoc(header: Header, place: Placement, waste: WasteFields)

  /** A document of any booking collection, as a match predicate sees it. */
  datatype Doc = ShipmentRecord(shipment: ShipmentDoc) | FlatRecord(flat: FlatDoc)

  datatype Zone = Zone(name: Option<string>, color: Option<string>)
  datatype SubProject = SubProject(name: Option<string>)
  datatype Company = Company(name: Option<string>)

  /** A resource document; the resource collection keeps its storage order. */
  datatype ResourceDoc = ResourceDoc(id: Id, pattern: Option<string>)

  /** A user, found by the external (Clerk) id, which need not be unique. */
  datatype User = User(
    clerkUserId: Option<string>,
    email: Option<string>,
    phoneNumber: Option<string>,
    firstName: Option<string>,
    lastName: Option<string>,
    image: Option<string>)

  /** `project.settings`: the module flags and display colours. */
  datatype Settings = Settings(
    shipmentModule: JsValue,
    wasteModule: JsValue,
    wasteBookingColor: Option<string>,
    resourceBookingColor: Option<string>)

  datatype Project = Project(settings: Option<Settings>)

  /** The collections the engine reads. */
  datatype Store = Store(
    projects: map<Id, Project>,
    zones: map<Id, Zone>,
    subProjects: map<Id, SubProject>,
    companies: map<Id, Company>,
    resources: seq<ResourceDoc>,
    users: seq<User>,
    shipments: seq<ShipmentDoc>,
    wastes: seq<FlatDoc>,
    resourceBookings: seq<FlatDoc>)
}
