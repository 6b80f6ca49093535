/**
 * The common row shape the three families are projected to, and the two
 * projections: one for a shipment leg row, one for a waste or resource
 * booking.
 */
module Projection {
  import opened Wrappers
  import opened Records
  import opened BookingTypes
  import opened ShipmentFlattener
  import opened Lookups

  /** The fill colour of a shipment row whose zone has no colour. */
  const NeutralColor: string := "rgb(211, 211, 211)"

  /** Fields only shipment rows carry. */
  datatype ShipmentFields = ShipmentFields(
    unloadingZoneName: Option<string>,
    shipmentStatus: Option<string>,
    supplierName: Option<string>,
    legIndex: nat,
    direction: Option<string>,
    isSmallParcel: Option<bool>)

  /** One calendar event, whatever family it came from. */
  datatype Row = Row(
    id: Id,
    bookingType: Family,
    start: int,
    end: int,
    allDay: bool,
    info: Option<string>,
    isConfirmed: Option<bool>,
    requestStatus: Option<string>,
    backgroundColor: string,
    subProjectName: Option<string>,
    resourceIcons: Option<seq<string>>,
    contractorName: Option<string>,
    email: Option<string>,
    phoneNumber: Option<string>,
    firstName: Option<string>,
    lastName: Option<string>,
    image: Option<string>,
    shipment: Option<ShipmentFields>,
    waste: Option<WasteFields>)

  function SubProjectName(s: Option<SubProject>): Option<string> {
    if s.Some? then s.value.name else None
  }

  function CompanyName(c: Option<Company>): Option<string> {
    if c.Some? then c.value.name else None
  }

  function UserField(u: Option<User>, field: User -> Option<string>): Option<string> {
    if u.Some? then field(u.value) else None
  }

  /** `$ifNull` on the zone colour: a missing zone or a missing colour falls back. */
  function ZoneColor(z: Option<Zone>): string {
    if z.Some? && z.value.color.Some? then z.value.color.value else NeutralColor
  }

  /** The row carries the user's contact fields, or none of them when no user joined. */
  predicate ShowsUser(row: Row, u: Option<User>) {
    if u.Some? then
      && row.email == u.value.email && row.phoneNumber == u.value.phoneNumber
      && row.firstName == u.value.firstName && row.lastName == u.value.lastName
      && row.image == u.value.image
    else
      && row.email.None? && row.phoneNumber.None? && row.firstName.None?
      && row.lastName.None? && row.image.None?
  }

  /**
   * The row names the joined sub-project and contractor, each absent when
   * the lookup found nothing, and shows the unwound user.
   */
  predicate ShowsJoined(row: Row, j: Joined) {
    && (if j.subProject.Some? then row.subProjectName == j.subProject.value.name else row.subProjectName.None?)
    && (if j.contractor.Some? then row.contractorName == j.contractor.value.name else row.contractorName.None?)
    && ShowsUser(row, j.user)
  }

  /** The shipment projection: window, status and direction come from the leg. */
  function ProjectLegRow(lr: LegRow, j: Joined): (row: Row)
    ensures row.bookingType == Shipment && row.id == lr.shipment.header.id
    ensures row.start == lr.leg.place.window.from && row.end == lr.leg.place.window.to
    ensures row.allDay == lr.leg.place.window.isAllDay
    ensures row.info == lr.shipment.header.info && row.isConfirmed == lr.shipment.header.isConfirmed
    ensures row.requestStatus == lr.shipment.header.requestStatus
    ensures j.zone.Some? && j.zone.value.color.Some? ==> row.backgroundColor == j.zone.value.color.value
    ensures !(j.zone.Some? && j.zone.value.color.Some?) ==> row.backgroundColor == NeutralColor
    ensures ShowsJoined(row, j)
    ensures row.shipment.Some? && row.shipment.value.legIndex == lr.legIndex
    ensures row.shipment.value.shipmentStatus == lr.leg.shipmentStatus
    ensures row.shipment.value.direction == lr.leg.direction
    ensures row.shipment.value.isSmallParcel == lr.shipment.isSmallParcel
    ensures row.shipment.value.unloadingZoneName == if j.zone.Some? then j.zone.value.name else None
    ensures row.shipment.value.supplierName == if j.supplier.Some? then j.supplier.value.name else None
    ensures row.waste.None? && row.resourceIcons == Some(j.resourceIcons)
  {
    var h := lr.shipment.header;
    Row(
      h.id, Shipment,
      lr.leg.place.window.from, lr.leg.place.window.to, lr.leg.place.window.isAllDay,
      h.info, h.isConfirmed, h.requestStatus,
      ZoneColor(j.zone),
      SubProjectName(j.subProject),
      Some(j.resourceIcons),
      CompanyName(j.contractor),
      UserField(j.user, (u: User) => u.email), UserField(j.user, (u: User) => u.phoneNumber),
      UserField(j.user, (u: User) => u.firstName), UserField(j.user, (u: User) => u.lastName),
      UserField(j.user, (u: User) => u.image),
      Some(ShipmentFields(
        if j.zone.Some? then j.zone.value.name else None,
        lr.leg.shipmentStatus,
        CompanyName(j.supplier),
        lr.legIndex,
        lr.leg.direction,
        lr.shipment.isSmallParcel)),
      None)
  }

  /**
   * The waste/resource projection: the window is the booking's own, the
   * colour is the one supplied, and the family-only fields appear only on
   * their family.
   */
  function ProjectFlatRow(family: Family, d: FlatDoc, j: Joined, color: string): (row: Row)
    requires family != Shipment
    ensures row.bookingType == family && row.id == d.header.id
    ensures row.start == d.place.window.from && row.end == d.place.window.to
    ensures row.allDay == d.place.window.isAllDay
    ensures row.info == d.header.info && row.isConfirmed == d.header.isConfirmed
    ensures row.requestStatus == d.header.requestStatus
    ensures row.backgroundColor == color
    ensures ShowsJoined(row, j)
    ensures row.shipment.None?
    ensures row.waste.Some? <==> family == Waste
    ensures row.waste.Some? ==> row.waste.value == d.waste
    ensures row.resourceIcons.Some? <==> family == Resource
    ensures row.resourceIcons.Some? ==> row.resourceIcons.value == j.resourceIcons
  {
    var h := d.header;
    Row(
      h.id, family,
      d.place.window.from, d.place.window.to, d.place.window.isAllDay,
      h.info, h.isConfirmed, h.requestStatus,
      color,
      SubProjectName(j.subProject),
      if family == Resource then Some(j.resourceIcons) else None,
      CompanyName(j.contractor),
      UserField(j.user, (u: User) => u.email), UserField(j.user, (u: User) => u.phoneNumber),
      UserField(j.user, (u: User) => u.firstName), UserField(j.user, (u: User) => u.lastName),
      UserField(j.user, (u: User) => u.image),
      None,
      if family == Waste then Some(d.waste) else None)
  }
}
