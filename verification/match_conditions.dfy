/**
 * The condition builder of the pipeline service: a booking family, a
 * project, a window and optional filters become a conjunction of
 * conditions, with a semantics `Matches` over stored documents.
 */
module MatchConditions {
  import opened Wrappers
  import opened JsValues
  import opened Records
  import opened BookingTypes

  /** Conditions on the placement fields (the "base" conditions). */
  datatype BaseCond =
    | ProjectIs(projectId: Id)          // project_id equals the requested id
    | FromAtOrAfter(start: int)         // date_range.from >= start
    | ToAtOrBefore(end: int)            // date_range.to <= end
    | ZoneIn(zones: seq<Id>)            // unloading_zone_id in the list
    | SubProjectIn(subProjects: seq<Id>)
    | AnyResourceIn(resources: seq<Id>) // the resources array meets the list

  /** Conditions on a whole stored document. */
  datatype Cond =
    | OnBooking(base: BaseCond)         // a base condition on the document itself
    | SomeLeg(legConds: seq<BaseCond>)  // some single leg satisfies all of them
    | NotSmallParcel                    // is_small_parcel is not true
    | ContractorIn(contractors: seq<Id>)
    | RequestStatusIs(status: string)
    | NotDeleted                        // is_deleted is exactly false
    | ConfirmedNotFalse                 // is_confirmed is anything but false
    | ConfirmedIsFalse                  // is_confirmed is exactly false

  /** The optional filters of a bookings query. */
  datatype Filters = Filters(
    zones: Option<seq<Id>>,
    subProjects: Option<seq<Id>>,
    contractors: Option<seq<Id>>,
    resources: Option<seq<Id>>,
    requestStatus: Option<string>,
    isConfirmed: bool)

  /** A bookings query: the project, the window and the filters. */
  datatype Query = Query(projectId: Id, start: int, end: int, filters: Filters)

  /** A reference field holds one of the listed ids. */
  predicate InList(v: Option<Id>, ids: seq<Id>) {
    v.Some? && v.value in ids
  }

  predicate HoldsOn(c: BaseCond, p: Placement) {
    match c
    case ProjectIs(id) => p.projectId == Some(id)
    case FromAtOrAfter(t) => p.window.from >= t
    case ToAtOrBefore(t) => p.window.to <= t
    case ZoneIn(ids) => InList(p.zoneId, ids)
    case SubProjectIn(ids) => InList(p.subProjectId, ids)
    case AnyResourceIn(ids) => exists i :: 0 <= i < |p.resources| && p.resources[i] in ids
  }

  predicate AllHoldOn(cs: seq<BaseCond>, p: Placement) {
    forall i :: 0 <= i < |cs| ==> HoldsOn(cs[i], p)
  }

  function HeaderOf(d: Doc): Header {
    match d
    case ShipmentRecord(s) => s.header
    case FlatRecord(f) => f.header
  }

  /** A field the document lacks satisfies no positive condition. */
  predicate Holds(c: Cond, d: Doc) {
    match c
    case OnBooking(b) => d.FlatRecord? && HoldsOn(b, d.flat.place)
    case SomeLeg(cs) =>
      d.ShipmentRecord? && exists i :: 0 <= i < |d.shipment.legs| && AllHoldOn(cs, d.shipment.legs[i].place)
    case NotSmallParcel => !(d.ShipmentRecord? && d.shipment.isSmallParcel == Some(true))
    case ContractorIn(ids) => InList(HeaderOf(d).contractorId, ids)
    case RequestStatusIs(s) => HeaderOf(d).requestStatus == Some(s)
    case NotDeleted => HeaderOf(d).isDeleted == Some(false)
    case ConfirmedNotFalse => HeaderOf(d).isConfirmed != Some(false)
    case ConfirmedIsFalse => HeaderOf(d).isConfirmed == Some(false)
  }

  /** The conjunction of the conditions. */
  predicate Matches(pred: seq<Cond>, d: Doc) {
    forall i :: 0 <= i < |pred| ==> Holds(pred[i], d)
  }

  /** A filter list constrains only when it is present and non-empty. */
  predicate Listed(l: Option<seq<Id>>) {
    l.Some? && |l.value| > 0
  }

  function BaseConditions(q: Query): seq<BaseCond> {
    [ProjectIs(q.projectId), FromAtOrAfter(q.start), ToAtOrBefore(q.end)]
    + (if Listed(q.filters.zones) then [ZoneIn(q.filters.zones.value)] else [])
    + (if Listed(q.filters.subProjects) then [SubProjectIn(q.filters.subProjects.value)] else [])
    + (if Listed(q.filters.resources) then [AnyResourceIn(q.filters.resources.value)] else [])
  }

  function OnBookingAll(cs: seq<BaseCond>): (r: seq<Cond>)
    ensures |r| == |cs|
    ensures forall i :: 0 <= i < |cs| ==> r[i] == OnBooking(cs[i])
  {
    if cs == [] then [] else [OnBooking(cs[0])] + OnBookingAll(cs[1..])
  }

  /** `buildMatchConditions`. */
  function BuildMatchConditions(family: Family, q: Query): seq<Cond> {
    var base := BaseConditions(q);
    var scoped := if family == Shipment then [SomeLeg(base), NotSmallParcel] else OnBookingAll(base);
    scoped
    + (if Listed(q.filters.contractors) then [ContractorIn(q.filters.contractors.value)] else [])
    + (if TruthyString(q.filters.requestStatus) then [RequestStatusIs(q.filters.requestStatus.value)] else [])
    + [NotDeleted, if q.filters.isConfirmed then ConfirmedNotFalse else ConfirmedIsFalse]
  }

  // ---------------------------------------------------------------------
  // The selection the conditions are meant to express, stated directly.

  /** The booking's window lies inside the requested one (containment, not overlap). */
  predicate WithinWindow(q: Query, w: DateRange) {
    q.start <= w.from && w.to <= q.end
  }

  predicate PlacementSelected(q: Query, p: Placement) {
    && p.projectId == Some(q.projectId)
    && WithinWindow(q, p.window)
    && (Listed(q.filters.zones) ==> InList(p.zoneId, q.filters.zones.value))
    && (Listed(q.filters.subProjects) ==> InList(p.subProjectId, q.filters.subProjects.value))
    && (Listed(q.filters.resources) ==> exists r :: r in p.resources && r in q.filters.resources.value)
  }

  predicate HeaderSelected(f: Filters, h: Header) {
    && (Listed(f.contractors) ==> InList(h.contractorId, f.contractors.value))
    && (TruthyString(f.requestStatus) ==> h.requestStatus == f.requestStatus)
    && h.isDeleted == Some(false)
    && (if f.isConfirmed then h.isConfirmed != Some(false) else h.isConfirmed == Some(false))
  }

  /**
   * A shipment is selected when one single leg satisfies every placement
   * filter and it is not a small parcel; a flat booking when it satisfies
   * them itself. The header filters apply to both.
   */
  predicate Selected(family: Family, q: Query, d: Doc) {
    match d
    case ShipmentRecord(s) =>
      && family == Shipment
      && s.isSmallParcel != Some(true)
      && (exists i :: 0 <= i < |s.legs| && PlacementSelected(q, s.legs[i].place))
      && HeaderSelected(q.filters, s.header)
    case FlatRecord(r) =>
      && family != Shipment
      && PlacementSelected(q, r.place)
      && HeaderSelected(q.filters, r.header)
  }

  // ---------------------------------------------------------------------
  // The builder expresses exactly that selection.

  lemma MatchesAppend(a: seq<Cond>, b: seq<Cond>, d: Doc)
    ensures Matches(a + b, d) <==> Matches(a, d) && Matches(b, d)
  {
    if Matches(a, d) && Matches(b, d) {
      forall i | 0 <= i < |a + b| ensures Holds((a + b)[i], d) {
        if i >= |a| { assert (a + b)[i] == b[i - |a|]; }
      }
    }
    if Matches(a + b, d) {
      forall i | 0 <= i < |a| ensures Holds(a[i], d) {
        assert (a + b)[i] == a[i];
      }
      forall i | 0 <= i < |b| ensures Holds(b[i], d) {
        assert (a + b)[|a| + i] == b[i];
      }
    }
  }

  lemma MatchesSingleton(c: Cond, d: Doc)
    ensures Matches([c], d) <==> Holds(c, d)
  {
    assert [c][0] == c;
  }

  lemma AllHoldOnSingleton(c: BaseCond, p: Placement)
    ensures AllHoldOn([c], p) <==> HoldsOn(c, p)
  {
    assert [c][0] == c;
  }

  lemma AllHoldOnAppend(a: seq<BaseCond>, b: seq<BaseCond>, p: Placement)
    ensures AllHoldOn(a + b, p) <==> AllHoldOn(a, p) && AllHoldOn(b, p)
  {
    if AllHoldOn(a, p) && AllHoldOn(b, p) {
      forall i | 0 <= i < |a + b| ensures HoldsOn((a + b)[i], p) {
        if i >= |a| { assert (a + b)[i] == b[i - |a|]; }
      }
    }
    if AllHoldOn(a + b, p) {
      forall i | 0 <= i < |a| ensures HoldsOn(a[i], p) {
        assert (a + b)[i] == a[i];
      }
      forall i | 0 <= i < |b| ensures HoldsOn(b[i], p) {
        assert (a + b)[|a| + i] == b[i];
      }
    }
  }

  /** The base conditions hold on a placement exactly when it is selected. */
  lemma BaseConditionsMeaning(q: Query, p: Placement)
    ensures AllHoldOn(BaseConditions(q), p) <==> PlacementSelected(q, p)
  {
    var core := [ProjectIs(q.projectId), FromAtOrAfter(q.start), ToAtOrBefore(q.end)];
    var z := if Listed(q.filters.zones) then [ZoneIn(q.filters.zones.value)] else [];
    var s := if Listed(q.filters.subProjects) then [SubProjectIn(q.filters.subProjects.value)] else [];
    var r := if Listed(q.filters.resources) then [AnyResourceIn(q.filters.resources.value)] else [];
    assert BaseConditions(q) == core + z + s + r;
    AllHoldOnAppend(core + z + s, r, p);
    AllHoldOnAppend(core + z, s, p);
    AllHoldOnAppend(core, z, p);
    assert AllHoldOn(core, p) <==> p.projectId == Some(q.projectId) && WithinWindow(q, p.window) by {
      assert HoldsOn(core[0], p) && HoldsOn(core[1], p) && HoldsOn(core[2], p) ==> AllHoldOn(core, p);
    }
    if Listed(q.filters.zones) {
      AllHoldOnSingleton(ZoneIn(q.filters.zones.value), p);
    }
    if Listed(q.filters.subProjects) {
      AllHoldOnSingleton(SubProjectIn(q.filters.subProjects.value), p);
    }
    if Listed(q.filters.resources) {
      var ids := q.filters.resources.value;
      AllHoldOnSingleton(AnyResourceIn(ids), p);
      if HoldsOn(AnyResourceIn(ids), p) {
        var i :| 0 <= i < |p.resources| && p.resources[i] in ids;
        assert p.resources[i] in p.resources;
      }
      if exists x :: x in p.resources && x in ids {
        var x :| x in p.resources && x in ids;
        var i :| 0 <= i < |p.resources| && p.resources[i] == x;
        assert HoldsOn(AnyResourceIn(ids), p);
      }
    }
  }

  lemma HeaderConditionsMeaning(q: Query, d: Doc)
    ensures
      var tail :=
        (if Listed(q.filters.contractors) then [ContractorIn(q.filters.contractors.value)] else [])
        + (if TruthyString(q.filters.requestStatus) then [RequestStatusIs(q.filters.requestStatus.value)] else [])
        + [NotDeleted, if q.filters.isConfirmed then ConfirmedNotFalse else ConfirmedIsFalse];
      Matches(tail, d) <==> HeaderSelected(q.filters, HeaderOf(d))
  {
    var c := if Listed(q.filters.contractors) then [ContractorIn(q.filters.contractors.value)] else [];
    var s := if TruthyString(q.filters.requestStatus) then [RequestStatusIs(q.filters.requestStatus.value)] else [];
    var e := [NotDeleted, if q.filters.isConfirmed then ConfirmedNotFalse else ConfirmedIsFalse];
    MatchesAppend(c + s, e, d);
    MatchesAppend(c, s, d);
    if Listed(q.filters.contractors) {
      MatchesSingleton(ContractorIn(q.filters.contractors.value), d);
    }
    if TruthyString(q.filters.requestStatus) {
      MatchesSingleton(RequestStatusIs(q.filters.requestStatus.value), d);
    }
    assert Matches(e, d) <==> Holds(e[0], d) && Holds(e[1], d);
  }

  /**
   * The match conditions select a document of the family's collection
   * exactly when the direct definition does.
   */
  lemma BuildMatchConditionsMeaning(family: Family, q: Query, d: Doc)
    ensures Matches(BuildMatchConditions(family, q), d) <==> Selected(family, q, d)
  {
    var base := BaseConditions(q);
    var scoped := if family == Shipment then [SomeLeg(base), NotSmallParcel] else OnBookingAll(base);
    var tail :=
      (if Listed(q.filters.contractors) then [ContractorIn(q.filters.contractors.value)] else [])
      + (if TruthyString(q.filters.requestStatus) then [RequestStatusIs(q.filters.requestStatus.value)] else [])
      + [NotDeleted, if q.filters.isConfirmed then ConfirmedNotFalse else ConfirmedIsFalse];
    assert BuildMatchConditions(family, q) == scoped + tail;
    MatchesAppend(scoped, tail, d);
    HeaderConditionsMeaning(q, d);
    match d
    case ShipmentRecord(s) =>
      if family == Shipment {
        assert Matches(scoped, d) <==> Holds(scoped[0], d) && Holds(scoped[1], d);
        forall i | 0 <= i < |s.legs|
          ensures AllHoldOn(base, s.legs[i].place) <==> PlacementSelected(q, s.legs[i].place)
        {
          BaseConditionsMeaning(q, s.legs[i].place);
        }
      } else {
        assert !Holds(scoped[0], d);
      }
    case FlatRecord(r) =>
      if family == Shipment {
        assert !Holds(scoped[0], d);
      } else {
        BaseConditionsMeaning(q, r.place);
        assert Matches(scoped, d) <==> AllHoldOn(base, r.place) by {
          if AllHoldOn(base, r.place) {
            forall i | 0 <= i < |scoped| ensures Holds(scoped[i], d) {
              assert HoldsOn(base[i], r.place);
            }
          }
          if Matches(scoped, d) {
            forall i | 0 <= i < |base| ensures HoldsOn(base[i], r.place) {
              assert Holds(scoped[i], d);
            }
          }
        }
      }
  }

  // ---------------------------------------------------------------------
  // Consequences of the conditions.

  /**
   * Window matching is containment: a flat booking that starts before the
   * window or ends after it is not matched, however much it overlaps.
   */
  lemma WindowIsContainment(family: Family, q: Query, r: FlatDoc)
    ensures r.place.window.from < q.start ==> !Matches(BuildMatchConditions(family, q), FlatRecord(r))
    ensures r.place.window.to > q.end ==> !Matches(BuildMatchConditions(family, q), FlatRecord(r))
  {
    BuildMatchConditionsMeaning(family, q, FlatRecord(r));
  }

  /**
   * For shipments the placement conditions must hold together on one leg:
   * legs that each satisfy only part of them do not make a match, and a
   * small parcel never matches.
   */
  lemma ShipmentMatchIsPerLeg(q: Query, s: ShipmentDoc)
    requires forall i :: 0 <= i < |s.legs| ==> !PlacementSelected(q, s.legs[i].place)
    ensures !Matches(BuildMatchConditions(Shipment, q), ShipmentRecord(s))
  {
    BuildMatchConditionsMeaning(Shipment, q, ShipmentRecord(s));
  }

  lemma SmallParcelsNeverMatch(q: Query, s: ShipmentDoc)
    requires s.isSmallParcel == Some(true)
    ensures !Matches(BuildMatchConditions(Shipment, q), ShipmentRecord(s))
  {
    BuildMatchConditionsMeaning(Shipment, q, ShipmentRecord(s));
  }

  /**
   * The confirmation filter has three cases: asking for confirmed bookings
   * keeps an unset flag, asking for unconfirmed ones keeps only an explicit
   * `false`. A booking whose `is_deleted` is not exactly `false` never matches.
   */
  lemma ConfirmationIsTriState(family: Family, q: Query, d: Doc)
    ensures q.filters.isConfirmed && HeaderOf(d).isConfirmed == Some(false)
      ==> !Matches(BuildMatchConditions(family, q), d)
    ensures !q.filters.isConfirmed && HeaderOf(d).isConfirmed != Some(false)
      ==> !Matches(BuildMatchConditions(family, q), d)
    ensures HeaderOf(d).isDeleted != Some(false) ==> !Matches(BuildMatchConditions(family, q), d)
    ensures Matches(BuildMatchConditions(family, q), d) && HeaderOf(d).isConfirmed.None? ==> q.filters.isConfirmed
  {
    BuildMatchConditionsMeaning(family, q, d);
  }

  /** An empty zone, sub-project or resource list selects what an absent one does. */
  lemma EmptyPlacementListIsNoFilter(family: Family, q: Query, d: Doc)
    ensures var f := q.filters;
      && (Matches(BuildMatchConditions(family, q.(filters := f.(zones := Some([])))), d)
          <==> Matches(BuildMatchConditions(family, q.(filters := f.(zones := None))), d))
      && (Matches(BuildMatchConditions(family, q.(filters := f.(subProjects := Some([])))), d)
          <==> Matches(BuildMatchConditions(family, q.(filters := f.(subProjects := None))), d))
      && (Matches(BuildMatchConditions(family, q.(filters := f.(resources := Some([])))), d)
          <==> Matches(BuildMatchConditions(family, q.(filters := f.(resources := None))), d))
  {
    var f := q.filters;
    var variants := [
      f.(zones := Some([])), f.(zones := None),
      f.(subProjects := Some([])), f.(subProjects := None),
      f.(resources := Some([])), f.(resources := None)];
    forall k | 0 <= k < |variants|
      ensures Matches(BuildMatchConditions(family, q.(filters := variants[k])), d)
          <==> Selected(family, q.(filters := variants[k]), d)
    {
      BuildMatchConditionsMeaning(family, q.(filters := variants[k]), d);
    }
    assert variants[0] == f.(zones := Some([]));
  }

  /** An empty contractor list or an empty request status selects what an absent one does. */
  lemma EmptyHeaderFilterIsNoFilter(family: Family, q: Query, d: Doc)
    ensures var f := q.filters;
      && (Matches(BuildMatchConditions(family, q.(filters := f.(contractors := Some([])))), d)
          <==> Matches(BuildMatchConditions(family, q.(filters := f.(contractors := None))), d))
      && (Matches(BuildMatchConditions(family, q.(filters := f.(requestStatus := Some("")))), d)
          <==> Matches(BuildMatchConditions(family, q.(filters := f.(requestStatus := None))), d))
  {
    var f := q.filters;
    var variants := [
      f.(contractors := Some([])), f.(contractors := None),
      f.(requestStatus := Some("")), f.(requestStatus := None)];
    forall k | 0 <= k < |variants|
      ensures Matches(BuildMatchConditions(family, q.(filters := variants[k])), d)
          <==> Selected(family, q.(filters := variants[k]), d)
    {
      BuildMatchConditionsMeaning(family, q.(filters := variants[k]), d);
    }
    assert variants[0] == f.(contractors := Some([]));
  }

  /**
   * With no optional filter, a flat booking of the project inside the
   * window that is live and not explicitly unconfirmed is matched.
   */
  lemma UnfilteredQuerySelectsWindow(family: Family, q: Query, r: FlatDoc)
    requires family != Shipment
    requires q.filters == Filters(None, None, None, None, None, true)
    requires r.place.projectId == Some(q.projectId) && WithinWindow(q, r.place.window)
    requires r.header.isDeleted == Some(false) && r.header.isConfirmed != Some(false)
    ensures Matches(BuildMatchConditions(family, q), FlatRecord(r))
  {
    BuildMatchConditionsMeaning(family, q, FlatRecord(r));
  }
}
