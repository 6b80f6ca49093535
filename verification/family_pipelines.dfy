/**
 * The per-family pipelines of the pipeline service: match, (for
 * shipments) flatten and keep the project's legs, join the references and
 * project to rows. The order of rows inside one family follows the store
 * and is not part of any promise below.
 */
module FamilyPipelines {
  import opened Wrappers
  import opened ObjectIds
  import opened Records
  import opened BookingTypes
  import opened MatchConditions
  import opened ShipmentFlattener
  import opened Lookups
  import opened Projection

  /** The documents that satisfy `keep`, in collection order (`$match`). */
  function Filter<T(!new)>(xs: seq<T>, keep: T -> bool): (ys: seq<T>)
    ensures |ys| <= |xs|
    ensures forall y :: y in ys <==> y in xs && keep(y)
  {
    if xs == [] then []
    else (if keep(xs[0]) then [xs[0]] else []) + Filter(xs[1..], keep)
  }

  /** `$match` keeps the collection order: filtering a concatenation filters each part in turn. */
  lemma {:induction false} FilterAppend<T(!new)>(xs: seq<T>, ys: seq<T>, keep: T -> bool)
    ensures Filter(xs + ys, keep) == Filter(xs, keep) + Filter(ys, keep)
  {
    if xs != [] {
      assert (xs + ys)[0] == xs[0] && (xs + ys)[1..] == xs[1..] + ys;
      FilterAppend(xs[1..], ys, keep);
    } else {
      assert xs + ys == ys;
    }
  }

  /**
   * Runs a stage that may fail on every element and concatenates the
   * outputs; one failure fails the whole aggregation.
   */
  function CollectAll<A, B, E>(xs: seq<A>, f: A -> Result<seq<B>, E>): Result<seq<B>, E> {
    if xs == [] then Success([])
    else
      match f(xs[0])
      case Failure(e) => Failure(e)
      case Success(head) =>
        match CollectAll(xs[1..], f)
        case Failure(e) => Failure(e)
        case Success(tail) => Success(head + tail)
  }

  lemma {:induction false} CollectAllSpec<A, B, E>(xs: seq<A>, f: A -> Result<seq<B>, E>)
    ensures CollectAll(xs, f).Success? <==> forall a :: a in xs ==> f(a).Success?
    ensures CollectAll(xs, f).Success? ==>
      forall b :: b in CollectAll(xs, f).value <==> exists a :: a in xs && f(a).Success? && b in f(a).value
    ensures CollectAll(xs, f).Success? && (forall a :: a in xs ==> f(a).Success? && |f(a).value| >= 1)
      ==> |CollectAll(xs, f).value| >= |xs|
    ensures CollectAll(xs, f).Success? && (forall a :: a in xs ==> f(a).Success? && |f(a).value| == 1)
      ==> |CollectAll(xs, f).value| == |xs|
  {
    if xs != [] {
      CollectAllSpec(xs[1..], f);
      assert forall a :: a in xs <==> a == xs[0] || a in xs[1..];
      if CollectAll(xs, f).Success? {
        assert CollectAll(xs, f).value == f(xs[0]).value + CollectAll(xs[1..], f).value;
      }
    }
  }

  // ---------------------------------------------------------------------
  // Shipments.

  /** The flattened rows of the matched shipments that belong to the project. */
  function LegRowsOf(ss: seq<ShipmentDoc>, projectId: Id): seq<LegRow> {
    if ss == [] then [] else KeepProjectLegs(Flatten(ss[0]), projectId) + LegRowsOf(ss[1..], projectId)
  }

  lemma {:induction false} LegRowsOfMembers(ss: seq<ShipmentDoc>, projectId: Id)
    ensures forall lr :: lr in LegRowsOf(ss, projectId) <==>
      exists s :: s in ss && lr in KeepProjectLegs(Flatten(s), projectId)
  {
    if ss != [] {
      LegRowsOfMembers(ss[1..], projectId);
      assert forall s :: s in ss <==> s == ss[0] || s in ss[1..];
    }
  }

  /** A reference that `$toObjectId` cannot convert. */
  predicate BadRef(ref: Option<Id>) {
    ref.Some? && !IsObjectIdString(ref.value)
  }

  /** Some conversion of the shipment lookups fails on this leg row. */
  predicate LegRowConversionFails(store: Store, lr: LegRow) {
    || BadRef(lr.leg.place.zoneId)
    || (|store.subProjects| > 0 && BadRef(lr.leg.place.subProjectId))
    || (store.resources != [] && exists i :: 0 <= i < |lr.leg.place.resources| && !IsObjectIdString(lr.leg.place.resources[i]))
    || BadRef(lr.shipment.supplierId)
    || BadRef(lr.shipment.header.contractorId)
  }

  /** The row shows leg `i` of shipment `s`. */
  predicate DescribesLeg(row: Row, s: ShipmentDoc, i: nat)
    requires i < |s.legs|
  {
    && row.bookingType == Shipment
    && row.id == s.header.id
    && row.shipment.Some? && row.shipment.value.legIndex == i
    && row.start == s.legs[i].place.window.from
    && row.end == s.legs[i].place.window.to
    && row.allDay == s.legs[i].place.window.isAllDay
    && row.shipment.value.shipmentStatus == s.legs[i].shipmentStatus
  }

  /**
   * The row shows the leg's zone: its name and colour when the zone
   * resolves, no name and the neutral colour when it does not, and the
   * neutral colour too when the zone has no colour.
   */
  predicate ShowsZone(store: Store, leg: Leg, row: Row) {
    && row.shipment.Some?
    && (if Resolves(store.zones, leg.place.zoneId) then
          var z := store.zones[CanonicalId(leg.place.zoneId.value)];
          && row.shipment.value.unloadingZoneName == z.name
          && row.backgroundColor == (if z.color.Some? then z.color.value else NeutralColor)
        else
          && row.shipment.value.unloadingZoneName.None?
          && row.backgroundColor == NeutralColor)
  }

  /** The name of the document the reference resolves to, or none. */
  function ResolvedName<T>(m: map<Id, T>, ref: Option<Id>, name: T -> Option<string>): Option<string> {
    if Resolves(m, ref) then name(m[CanonicalId(ref.value)]) else None
  }

  /**
   * The row shows what the store holds for the booking's references: the
   * sub-project and contractor names they resolve to and the user unwound
   * into it.
   */
  predicate ShowsReferences(store: Store, place: Placement, h: Header, user: Option<User>, row: Row) {
    && row.subProjectName == ResolvedName(store.subProjects, place.subProjectId, (s: SubProject) => s.name)
    && row.contractorName == ResolvedName(store.companies, h.contractorId, (c: Company) => c.name)
    && ShowsUser(row, user)
  }

  /** Joins and projects one leg row. */
  function EnrichLegRow(store: Store, lr: LegRow): (r: Result<seq<Row>, LookupError>)
    ensures r.Failure? <==> LegRowConversionFails(store, lr)
    ensures r.Success? ==> |r.value| == if MatchingUsers(store.users, lr.shipment.header.responsiblePerson) == [] then 1
                                         else |MatchingUsers(store.users, lr.shipment.header.responsiblePerson)|
    ensures r.Success? ==> forall row :: row in r.value ==> ShowsZone(store, lr.leg, row)
    ensures r.Success? ==> forall row :: row in r.value ==>
      row.bookingType == Shipment && row.id == lr.shipment.header.id
      && row.shipment.Some? && row.shipment.value.legIndex == lr.legIndex
      && row.start == lr.leg.place.window.from && row.end == lr.leg.place.window.to
      && row.allDay == lr.leg.place.window.isAllDay
      && row.shipment.value.shipmentStatus == lr.leg.shipmentStatus
    ensures r.Success? ==> forall k :: 0 <= k < |r.value| ==>
      && ShowsReferences(store, lr.leg.place, lr.shipment.header,
                         UnwoundUser(MatchingUsers(store.users, lr.shipment.header.responsiblePerson), k), r.value[k])
      && r.value[k].shipment.Some?
      && r.value[k].shipment.value.supplierName == ResolvedName(store.companies, lr.shipment.supplierId, (c: Company) => c.name)
      && r.value[k].resourceIcons == Some(PatternsOf(store.resources, lr.leg.place.resources))
  {
    var place := lr.leg.place;
    var h := lr.shipment.header;
    var zone :- JoinById(store.zones, place.zoneId);
    var sub :- JoinByIdInPipeline(store.subProjects, place.subProjectId);
    var icons :- ResourcePatterns(store.resources, place.resources);
    var supplier :- JoinById(store.companies, lr.shipment.supplierId);
    var contractor :- JoinById(store.companies, h.contractorId);
    var js := WithUsers(zone, sub, icons, supplier, contractor, MatchingUsers(store.users, h.responsiblePerson));
    Success(seq(|js|, k requires 0 <= k < |js| => ProjectLegRow(lr, js[k])))
  }

  /** The match stage of the shipment family. */
  function ShipmentSelector(q: Query): ShipmentDoc -> bool {
    (s: ShipmentDoc) => Matches(BuildMatchConditions(Shipment, q), ShipmentRecord(s))
  }

  function LegEnricher(store: Store): LegRow -> Result<seq<Row>, LookupError> {
    (lr: LegRow) => EnrichLegRow(store, lr)
  }

  /** The leg rows that reach the lookups. */
  function ShipmentLegRows(store: Store, q: Query): seq<LegRow> {
    LegRowsOf(Filter(store.shipments, ShipmentSelector(q)), q.projectId)
  }

  /** `getShipmentPipeline` run against the store. */
  function ShipmentRows(store: Store, q: Query): Result<seq<Row>, LookupError> {
    CollectAll(ShipmentLegRows(store, q), LegEnricher(store))
  }

  /**
   * Every shipment row shows one leg of a selected shipment, a leg of the
   * requested project, with its own position as index and its zone shown
   * as the lookup resolved it.
   */
  lemma ShipmentRowsSound(store: Store, q: Query, row: Row)
    requires ShipmentRows(store, q).Success? && row in ShipmentRows(store, q).value
    ensures exists s, i ::
              && s in store.shipments && Selected(Shipment, q, ShipmentRecord(s))
              && 0 <= i < |s.legs| && s.legs[i].place.projectId == Some(q.projectId)
              && DescribesLeg(row, s, i) && ShowsZone(store, s.legs[i], row)
  {
    var matched := Filter(store.shipments, ShipmentSelector(q));
    var rows := ShipmentLegRows(store, q);
    CollectAllSpec(rows, LegEnricher(store));
    LegRowsOfMembers(matched, q.projectId);
    var lr :| lr in rows && EnrichLegRow(store, lr).Success? && row in EnrichLegRow(store, lr).value;
    var s :| s in matched && lr in KeepProjectLegs(Flatten(s), q.projectId);
    KeptRowShape(s, q.projectId);
    BuildMatchConditionsMeaning(Shipment, q, ShipmentRecord(s));
    assert DescribesLeg(row, s, lr.legIndex);
  }

  /**
   * No lookup drops a row: each project leg of each selected shipment
   * appears, however many of its references resolve.
   */
  lemma ShipmentRowsComplete(store: Store, q: Query, s: ShipmentDoc, i: nat)
    requires ShipmentRows(store, q).Success?
    requires s in store.shipments && Selected(Shipment, q, ShipmentRecord(s))
    requires i < |s.legs| && s.legs[i].place.projectId == Some(q.projectId)
    ensures exists row ::
              && row in ShipmentRows(store, q).value
              && DescribesLeg(row, s, i) && ShowsZone(store, s.legs[i], row)
  {
    var rows := ShipmentLegRows(store, q);
    var lr := LegRow(s, s.legs[i], i);
    LegRowReachesLookups(store, q, s, i);
    CollectAllSpec(rows, LegEnricher(store));
    var row := EnrichLegRow(store, lr).value[0];
    assert row in ShipmentRows(store, q).value;
    assert DescribesLeg(row, s, i);
  }

  /** A project leg of a selected shipment reaches the lookups. */
  lemma LegRowReachesLookups(store: Store, q: Query, s: ShipmentDoc, i: nat)
    requires s in store.shipments && Selected(Shipment, q, ShipmentRecord(s))
    requires i < |s.legs| && s.legs[i].place.projectId == Some(q.projectId)
    ensures LegRow(s, s.legs[i], i) in ShipmentLegRows(store, q)
  {
    var matched := Filter(store.shipments, ShipmentSelector(q));
    BuildMatchConditionsMeaning(Shipment, q, ShipmentRecord(s));
    assert s in matched;
    KeptRowPresence(s, q.projectId, i);
    LegRowsOfMembers(matched, q.projectId);
  }

  /**
   * The family fails only through an unconvertible reference on a row
   * that reached the lookups.
   */
  lemma ShipmentRowsFailure(store: Store, q: Query)
    ensures ShipmentRows(store, q).Failure? <==>
      exists lr :: lr in ShipmentLegRows(store, q) && LegRowConversionFails(store, lr)
  {
    CollectAllSpec(ShipmentLegRows(store, q), LegEnricher(store));
  }

  /** With unique user ids, each leg row that reaches the lookups yields exactly one row. */
  lemma ShipmentRowCount(store: Store, q: Query)
    requires UniqueClerkIds(store.users) && ShipmentRows(store, q).Success?
    ensures |ShipmentRows(store, q).value| == |ShipmentLegRows(store, q)|
  {
    var rows := ShipmentLegRows(store, q);
    CollectAllSpec(rows, LegEnricher(store));
    forall lr | lr in rows
      ensures EnrichLegRow(store, lr).Success? && |EnrichLegRow(store, lr).value| == 1
    {
      AtMostOneUserWhenUnique(store.users, lr.shipment.header.responsiblePerson);
    }
  }

  // ---------------------------------------------------------------------
  // Waste and resource bookings.

  /** The collection a flat family reads. */
  function FlatCollection(store: Store, family: Family): seq<FlatDoc>
    requires family != Shipment
  {
    if family == Waste then store.wastes else store.resourceBookings
  }

  /** Some conversion of the flat lookups fails on this booking. */
  predicate FlatConversionFails(store: Store, family: Family, d: FlatDoc) {
    || (|store.subProjects| > 0 && BadRef(d.place.subProjectId))
    || BadRef(d.header.contractorId)
    || (family == Resource && store.resources != []
        && exists i :: 0 <= i < |d.place.resources| && !IsObjectIdString(d.place.resources[i]))
  }

  /** The row shows booking `d` of the family, in the supplied colour. */
  predicate DescribesBooking(row: Row, family: Family, d: FlatDoc, color: string) {
    && row.bookingType == family
    && row.id == d.header.id
    && row.start == d.place.window.from
    && row.end == d.place.window.to
    && row.allDay == d.place.window.isAllDay
    && row.backgroundColor == color
    && row.shipment.None?
    && (row.waste.Some? <==> family == Waste)
    && (row.waste.Some? ==> row.waste.value == d.waste)
    && (row.resourceIcons.Some? <==> family == Resource)
  }

  /** Joins and projects one waste or resource booking. */
  function EnrichFlatRow(store: Store, family: Family, d: FlatDoc, color: string): (r: Result<seq<Row>, LookupError>)
    requires family != Shipment
    ensures r.Failure? <==> FlatConversionFails(store, family, d)
    ensures r.Success? ==> |r.value| == if MatchingUsers(store.users, d.header.responsiblePerson) == [] then 1
                                         else |MatchingUsers(store.users, d.header.responsiblePerson)|
    ensures r.Success? ==> forall row :: row in r.value ==> DescribesBooking(row, family, d, color)
    ensures r.Success? ==> forall k :: 0 <= k < |r.value| ==>
      && ShowsReferences(store, d.place, d.header,
                         UnwoundUser(MatchingUsers(store.users, d.header.responsiblePerson), k), r.value[k])
      && (family == Resource ==> r.value[k].resourceIcons == Some(PatternsOf(store.resources, d.place.resources)))
  {
    var sub :- JoinByIdInPipeline(store.subProjects, d.place.subProjectId);
    var contractor :- JoinById(store.companies, d.header.contractorId);
    var icons :- if family == Resource then ResourcePatterns(store.resources, d.place.resources) else Success([]);
    var js := WithUsers(None, sub, icons, None, contractor, MatchingUsers(store.users, d.header.responsiblePerson));
    Success(seq(|js|, k requires 0 <= k < |js| => ProjectFlatRow(family, d, js[k], color)))
  }

  function FlatSelector(family: Family, q: Query): FlatDoc -> bool {
    (d: FlatDoc) => Matches(BuildMatchConditions(family, q), FlatRecord(d))
  }

  function FlatEnricher(store: Store, family: Family, color: string): FlatDoc -> Result<seq<Row>, LookupError>
    requires family != Shipment
  {
    (d: FlatDoc) => EnrichFlatRow(store, family, d, color)
  }

  /** `getNonShipmentPipeline` run against the family's collection. */
  function FlatRows(store: Store, family: Family, q: Query, color: string): Result<seq<Row>, LookupError>
    requires family != Shipment
  {
    CollectAll(Filter(FlatCollection(store, family), FlatSelector(family, q)), FlatEnricher(store, family, color))
  }

  /** Every waste or resource row shows a selected booking of that family's collection. */
  lemma FlatRowsSound(store: Store, family: Family, q: Query, color: string, row: Row)
    requires family != Shipment
    requires FlatRows(store, family, q, color).Success? && row in FlatRows(store, family, q, color).value
    ensures exists d ::
              && d in FlatCollection(store, family) && Selected(family, q, FlatRecord(d))
              && DescribesBooking(row, family, d, color)
  {
    var matched := Filter(FlatCollection(store, family), FlatSelector(family, q));
    CollectAllSpec(matched, FlatEnricher(store, family, color));
    var d :| d in matched && EnrichFlatRow(store, family, d, color).Success? && row in EnrichFlatRow(store, family, d, color).value;
    BuildMatchConditionsMeaning(family, q, FlatRecord(d));
  }

  /** No lookup drops a selected waste or resource booking. */
  lemma FlatRowsComplete(store: Store, family: Family, q: Query, color: string, d: FlatDoc)
    requires family != Shipment
    requires FlatRows(store, family, q, color).Success?
    requires d in FlatCollection(store, family) && Selected(family, q, FlatRecord(d))
    ensures exists row :: row in FlatRows(store, family, q, color).value && DescribesBooking(row, family, d, color)
  {
    var matched := Filter(FlatCollection(store, family), FlatSelector(family, q));
    BuildMatchConditionsMeaning(family, q, FlatRecord(d));
    assert d in matched;
    CollectAllSpec(matched, FlatEnricher(store, family, color));
    var row := EnrichFlatRow(store, family, d, color).value[0];
    assert row in FlatRows(store, family, q, color).value;
  }
}
