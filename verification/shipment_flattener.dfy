/**
 * The leg expansion of the shipment pipeline: `$range` over the leg count,
 * `$map` pairing each index with its leg, `$unwind` into one row per pair,
 * and then the per-leg project filter.
 */
module ShipmentFlattener {
  import opened Wrappers
  import opened Records

  /** A shipment seen through one of its legs, with the leg's 0-based position. */
  datatype LegRow = LegRow(shipment: ShipmentDoc, leg: Leg, legIndex: nat)

  /** An element of `shipment_legs_with_index`. */
  datatype IndexedLeg = IndexedLeg(index: nat, leg: Leg)

  /** `$range: [lo, hi]`. */
  function Range(lo: nat, hi: nat): (r: seq<nat>)
    decreases hi - lo
  {
    if lo >= hi then [] else [lo] + Range(lo + 1, hi)
  }

  lemma {:induction false} RangeElements(lo: nat, hi: nat)
    ensures |Range(lo, hi)| == if lo <= hi then hi - lo else 0
    ensures forall k :: 0 <= k < |Range(lo, hi)| ==> Range(lo, hi)[k] == lo + k
    decreases hi - lo
  {
    if lo < hi {
      RangeElements(lo + 1, hi);
    }
  }

  /** The `$map` over the range: each index with `$arrayElemAt` of the legs. */
  function PairWithLegs(indices: seq<nat>, legs: seq<Leg>): seq<IndexedLeg>
    requires forall k :: 0 <= k < |indices| ==> indices[k] < |legs|
  {
    if indices == [] then []
    else [IndexedLeg(indices[0], legs[indices[0]])] + PairWithLegs(indices[1..], legs)
  }

  /** `$unwind` of the indexed legs: one row per element, header repeated. */
  function Unwind(s: ShipmentDoc, items: seq<IndexedLeg>): seq<LegRow> {
    if items == [] then []
    else [LegRow(s, items[0].leg, items[0].index)] + Unwind(s, items[1..])
  }

  /** The rows the stages produce for one shipment. */
  function Flatten(s: ShipmentDoc): (rows: seq<LegRow>)
    ensures |rows| == |s.legs|
    ensures forall i :: 0 <= i < |rows| ==> rows[i] == LegRow(s, s.legs[i], i)
  {
    var indices := Range(0, |s.legs|);
    RangeElements(0, |s.legs|);
    var rows := Unwind(s, PairWithLegs(indices, s.legs));
    FlattenStages(s, indices);
    rows
  }

  lemma {:induction false} FlattenStages(s: ShipmentDoc, indices: seq<nat>)
    requires forall k :: 0 <= k < |indices| ==> indices[k] < |s.legs|
    ensures |Unwind(s, PairWithLegs(indices, s.legs))| == |indices|
    ensures forall k :: 0 <= k < |indices| ==>
      Unwind(s, PairWithLegs(indices, s.legs))[k] == LegRow(s, s.legs[indices[k]], indices[k])
  {
    if indices != [] {
      FlattenStages(s, indices[1..]);
    }
  }

  /** The legs read back from the rows, in row order. */
  function LegsOf(rows: seq<LegRow>): seq<Leg> {
    if rows == [] then [] else [rows[0].leg] + LegsOf(rows[1..])
  }

  /** Flattening loses nothing: reading the legs back restores the shipment's legs. */
  lemma FlattenRoundTrip(s: ShipmentDoc)
    ensures LegsOf(Flatten(s)) == s.legs
  {
    var rows := Flatten(s);
    LegsOfElements(rows);
  }

  lemma {:induction false} LegsOfElements(rows: seq<LegRow>)
    ensures |LegsOf(rows)| == |rows|
    ensures forall k :: 0 <= k < |rows| ==> LegsOf(rows)[k] == rows[k].leg
  {
    if rows != [] {
      LegsOfElements(rows[1..]);
    }
  }

  // ---------------------------------------------------------------------
  // The per-leg filter after the unwind.

  /**
   * The filter as intended: keep a row when its own leg belongs to the
   * requested project. No other leg condition is checked again here.
   */
  function KeepProjectLegs(rows: seq<LegRow>, projectId: Id): (kept: seq<LegRow>)
    ensures |kept| <= |rows|
    ensures forall r :: r in kept <==> r in rows && r.leg.place.projectId == Some(projectId)
  {
    if rows == [] then []
    else
      (if rows[0].leg.place.projectId == Some(projectId) then [rows[0]] else [])
      + KeepProjectLegs(rows[1..], projectId)
  }

  /**
   * The filter as written: the stage compares the leg's project with
   * `matchConditions.project_id`, which the shipment conditions do not
   * carry at top level. The undefined value is sent as null, and an
   * equality with null holds of a missing or null field only.
   */
  function KeepProjectLegsAsWritten(rows: seq<LegRow>): (kept: seq<LegRow>)
    ensures forall r :: r in kept <==> r in rows && r.leg.place.projectId.None?
  {
    if rows == [] then []
    else
      (if rows[0].leg.place.projectId.None? then [rows[0]] else [])
      + KeepProjectLegsAsWritten(rows[1..])
  }

  /**
   * The discrepancy: a shipment whose every leg names the requested
   * project contributes no row as written, and one row per leg as intended.
   */
  lemma AsWrittenDropsEveryProjectLeg(s: ShipmentDoc, projectId: Id)
    requires |s.legs| > 0
    requires forall i :: 0 <= i < |s.legs| ==> s.legs[i].place.projectId == Some(projectId)
    ensures KeepProjectLegsAsWritten(Flatten(s)) == []
    ensures |KeepProjectLegs(Flatten(s), projectId)| == |s.legs|
  {
    var rows := Flatten(s);
    if KeepProjectLegsAsWritten(rows) != [] {
      var r := KeepProjectLegsAsWritten(rows)[0];
      assert r in rows;
    }
    KeepAllWhenAllMatch(rows, projectId);
  }

  lemma {:induction false} KeepAllWhenAllMatch(rows: seq<LegRow>, projectId: Id)
    requires forall k :: 0 <= k < |rows| ==> rows[k].leg.place.projectId == Some(projectId)
    ensures KeepProjectLegs(rows, projectId) == rows
  {
    if rows != [] {
      KeepAllWhenAllMatch(rows[1..], projectId);
    }
  }

  /** Leg `i` of a shipment is kept, with index `i`, exactly when it belongs to the project. */
  lemma KeptRowPresence(s: ShipmentDoc, projectId: Id, i: nat)
    requires i < |s.legs|
    ensures LegRow(s, s.legs[i], i) in KeepProjectLegs(Flatten(s), projectId)
        <==> s.legs[i].place.projectId == Some(projectId)
  {
    assert Flatten(s)[i] == LegRow(s, s.legs[i], i);
  }

  /** Every kept row is one of the shipment's legs at its own position, in the project. */
  lemma KeptRowShape(s: ShipmentDoc, projectId: Id)
    ensures forall r :: r in KeepProjectLegs(Flatten(s), projectId) ==>
      r.shipment == s && r.legIndex < |s.legs| && r.leg == s.legs[r.legIndex]
      && r.leg.place.projectId == Some(projectId)
  {
    var rows := Flatten(s);
    forall r | r in KeepProjectLegs(rows, projectId)
      ensures r.shipment == s && r.legIndex < |s.legs| && r.leg == s.legs[r.legIndex]
    {
      var k :| 0 <= k < |rows| && rows[k] == r;
    }
  }
}
