/**
 * The `GET /api/bookings` handler: reads the query string, turns the
 * comma-separated filters into lists, defaults the required parameters to
 * the empty string and answers 200 or 400 with the service's result.
 */
module BookingRoute {
  import opened Wrappers
  import opened JsValues
  import opened Records
  import opened Projection
  import opened Bookings
  import opened JsStrings

  // ---------------------------------------------------------------------
  // The query string.

  /** `filter(Boolean)` on strings: the non-empty ones, in order. */
  function DropEmpty(xs: seq<string>): (ys: seq<string>)
    ensures forall y :: y in ys <==> y in xs && y != ""
  {
    if xs == [] then []
    else (if xs[0] == "" then [] else [xs[0]]) + DropEmpty(xs[1..])
  }

  /** `map(s => s.trim())`. */
  function TrimAll(xs: seq<string>): (ys: seq<string>)
    ensures |ys| == |xs| && forall k :: 0 <= k < |xs| ==> ys[k] == Trim(xs[k])
  {
    seq(|xs|, k requires 0 <= k < |xs| => Trim(xs[k]))
  }

  /**
   * `parseArray`: absent and empty values give no list; otherwise the
   * comma-separated pieces, trimmed, without the empty ones.
   */
  function ParseArray(v: Option<string>): (r: Option<seq<string>>)
    ensures r.Some? <==> TruthyString(v)
    ensures r.Some? ==> forall k :: 0 <= k < |r.value| ==> r.value[k] != "" && Trimmed(r.value[k]) && ',' !in r.value[k]
    ensures r.Some? ==> v.Some? && forall x :: x in r.value <==> PieceItem(v.value, x)
  {
    if !TruthyString(v) then None
    else
      var pieces := Split(v.value, ',');
      var items := DropEmpty(TrimAll(pieces));
      ItemsAreCleanPieces(pieces, items);
      Some(items)
  }

  /** `x` is the non-empty trim of some comma piece of `s`. */
  predicate PieceItem(s: string, x: string) {
    x != "" && exists k :: 0 <= k < |Split(s, ',')| && Trim(Split(s, ',')[k]) == x
  }

  /** The kept items are the non-empty trims of the pieces; comma-free pieces give comma-free items. */
  lemma ItemsAreCleanPieces(pieces: seq<string>, items: seq<string>)
    requires forall m :: 0 <= m < |pieces| ==> ',' !in pieces[m]
    requires items == DropEmpty(TrimAll(pieces))
    ensures && (forall k :: 0 <= k < |items| ==> items[k] != "" && Trimmed(items[k]) && ',' !in items[k])
      && (forall x :: x in items <==> x != "" && exists k :: 0 <= k < |pieces| && Trim(pieces[k]) == x)
  {
    forall k | 0 <= k < |items| ensures items[k] != "" && Trimmed(items[k]) && ',' !in items[k] {
      assert items[k] in TrimAll(pieces);
      var m :| 0 <= m < |pieces| && TrimAll(pieces)[m] == items[k];
      TrimStaysInside(pieces[m]);
    }
    forall x ensures x in items <==> x != "" && exists k :: 0 <= k < |pieces| && Trim(pieces[k]) == x {
      if x != "" && exists k :: 0 <= k < |pieces| && Trim(pieces[k]) == x {
        var k :| 0 <= k < |pieces| && Trim(pieces[k]) == x;
        assert TrimAll(pieces)[k] == x;
      }
    }
  }

  /** A comma piece as a client may write it: blank, or an item with whitespace around it. */
  datatype Piece = Blank(pad: string) | Padded(before: string, item: string, after: string)

  predicate WellPadded(p: Piece) {
    match p
    case Blank(pad) => AllWhitespace(pad)
    case Padded(before, item, after) =>
      AllWhitespace(before) && AllWhitespace(after) && item != "" && Trimmed(item) && ',' !in item
  }

  function Text(p: Piece): string {
    match p
    case Blank(pad) => pad
    case Padded(before, item, after) => before + item + after
  }

  function Texts(ps: seq<Piece>): seq<string> {
    seq(|ps|, k requires 0 <= k < |ps| => Text(ps[k]))
  }

  /** The items of the padded pieces, in order. */
  function ItemsOf(ps: seq<Piece>): seq<string> {
    if ps == [] then [] else (if ps[0].Padded? then [ps[0].item] else []) + ItemsOf(ps[1..])
  }

  /**
   * Whitespace around items and blank pieces between commas are ignored:
   * the value reads back as exactly its items, in order.
   */
  lemma ParseArrayIgnoresPadding(ps: seq<Piece>)
    requires |ps| >= 1 && forall k :: 0 <= k < |ps| ==> WellPadded(ps[k])
    requires Join(Texts(ps), ',') != ""
    ensures ParseArray(Some(Join(Texts(ps), ','))) == Some(ItemsOf(ps))
  {
    forall k | 0 <= k < |ps| ensures ',' !in Texts(ps)[k] {
      assert !IsJsWhitespace(',');
    }
    SplitJoin(Texts(ps), ',');
    TrimmedPieces(ps);
  }

  lemma {:induction false} TrimmedPieces(ps: seq<Piece>)
    requires forall k :: 0 <= k < |ps| ==> WellPadded(ps[k])
    ensures DropEmpty(TrimAll(Texts(ps))) == ItemsOf(ps)
  {
    if ps != [] {
      TrimmedPieces(ps[1..]);
      assert Texts(ps[1..]) == Texts(ps)[1..];
      assert TrimAll(Texts(ps))[1..] == TrimAll(Texts(ps[1..]));
      match ps[0]
      case Blank(pad) =>
        TrimPadded(pad, "", "");
        assert pad + "" + "" == pad;
      case Padded(before, item, after) =>
        TrimPadded(before, item, after);
    }
  }

  /**
   * A list written as its comma-joined items is read back as itself when
   * the items are non-empty, trimmed and comma-free.
   */
  lemma ParseArrayJoin(items: seq<string>)
    requires |items| >= 1
    requires forall k :: 0 <= k < |items| ==> items[k] != "" && Trimmed(items[k]) && ',' !in items[k]
    ensures ParseArray(Some(Join(items, ','))) == Some(items)
  {
    SplitJoin(items, ',');
    assert |Join(items, ',')| >= |items[0]|;
    forall k | 0 <= k < |items| ensures Trim(items[k]) == items[k] {
      TrimKeepsTrimmed(items[k]);
    }
    assert TrimAll(items) == items;
    DropEmptyOfNonEmpty(items);
  }

  lemma {:induction false} DropEmptyOfNonEmpty(items: seq<string>)
    requires forall k :: 0 <= k < |items| ==> items[k] != ""
    ensures DropEmpty(items) == items
  {
    if items != [] {
      DropEmptyOfNonEmpty(items[1..]);
      assert [items[0]] + items[1..] == items;
    }
  }

  /** `isConfirmed` is false only for the exact text `false`. */
  function ParseIsConfirmed(v: Option<string>): (b: bool)
    ensures !b <==> v == Some("false")
  {
    !(v.Some? && v.value == "false")
  }

  /** The decoded query string: the first value of each parameter. */
  type QueryString = map<string, string>

  function Param(query: QueryString, name: string): Option<string> {
    if name in query then Some(query[name]) else None
  }

  /** The parameters the handler builds; a missing required one becomes "". */
  function ParseQuery(query: QueryString): (params: BookingsParams)
    ensures params.projectId == Param(query, "project_id").GetOr("")
    ensures params.startDate == Param(query, "startDate").GetOr("")
    ensures params.endDate == Param(query, "endDate").GetOr("")
    ensures params.zones == ParseArray(Param(query, "zones"))
    ensures params.subProjects == ParseArray(Param(query, "subProjects"))
    ensures params.contractors == ParseArray(Param(query, "contractors"))
    ensures params.resources == ParseArray(Param(query, "resources"))
    ensures params.requestStatus == Param(query, "requestStatus")
    ensures params.isConfirmed == Some(ParseIsConfirmed(Param(query, "isConfirmed")))
  {
    BookingsParams(
      OrElse(Param(query, "project_id"), ""),
      OrElse(Param(query, "startDate"), ""),
      OrElse(Param(query, "endDate"), ""),
      ParseArray(Param(query, "zones")),
      ParseArray(Param(query, "subProjects")),
      ParseArray(Param(query, "contractors")),
      ParseArray(Param(query, "resources")),
      Param(query, "requestStatus"),
      Some(ParseIsConfirmed(Param(query, "isConfirmed"))))
  }

  /** A list a client can send: one or more non-empty, trimmed, comma-free items. */
  predicate Sendable(l: Option<seq<string>>) {
    l.Some? ==> |l.value| >= 1 && forall k :: 0 <= k < |l.value| ==> l.value[k] != "" && Trimmed(l.value[k]) && ',' !in l.value[k]
  }

  /** Adds a list parameter, comma-joined, when the list is present. */
  function WithList(query: QueryString, name: string, l: Option<seq<string>>): QueryString {
    if l.Some? then query[name := Join(l.value, ',')] else query
  }

  /** The query string a client sends for the parameters; absent values are left out. */
  function RenderQuery(params: BookingsParams): QueryString {
    var required := map[
      "project_id" := params.projectId,
      "startDate" := params.startDate,
      "endDate" := params.endDate,
      "isConfirmed" := if params.isConfirmed == Some(false) then "false" else "true"];
    var lists := WithList(WithList(WithList(WithList(required,
      "zones", params.zones), "subProjects", params.subProjects),
      "contractors", params.contractors), "resources", params.resources);
    if params.requestStatus.Some? then lists["requestStatus" := params.requestStatus.value] else lists
  }

  /** What the rendered query holds under each parameter name. */
  lemma RenderedValues(params: BookingsParams)
    ensures var q := RenderQuery(params);
      && Param(q, "project_id") == Some(params.projectId)
      && Param(q, "startDate") == Some(params.startDate)
      && Param(q, "endDate") == Some(params.endDate)
      && Param(q, "isConfirmed") == Some(if params.isConfirmed == Some(false) then "false" else "true")
      && Param(q, "requestStatus") == params.requestStatus
      && Param(q, "zones") == (if params.zones.Some? then Some(Join(params.zones.value, ',')) else None)
      && Param(q, "subProjects") == (if params.subProjects.Some? then Some(Join(params.subProjects.value, ',')) else None)
      && Param(q, "contractors") == (if params.contractors.Some? then Some(Join(params.contractors.value, ',')) else None)
      && Param(q, "resources") == (if params.resources.Some? then Some(Join(params.resources.value, ',')) else None)
  {
  }

  /** The handler reads back every parameter a client can send. */
  lemma ParseQueryRoundTrip(params: BookingsParams)
    requires params.isConfirmed.Some?
    requires Sendable(params.zones) && Sendable(params.subProjects)
    requires Sendable(params.contractors) && Sendable(params.resources)
    ensures ParseQuery(RenderQuery(params)) == params
  {
    RenderedValues(params);
    if params.zones.Some? { ParseArrayJoin(params.zones.value); }
    if params.subProjects.Some? { ParseArrayJoin(params.subProjects.value); }
    if params.contractors.Some? { ParseArrayJoin(params.contractors.value); }
    if params.resources.Some? { ParseArrayJoin(params.resources.value); }
    if params.isConfirmed.value {
      assert "true" != "false" by { assert "true"[0] != "false"[0]; }
    }
  }

  /** A required parameter the query lacks or leaves empty. */
  predicate LacksRequired(query: QueryString) {
    || !TruthyString(Param(query, "project_id"))
    || !TruthyString(Param(query, "startDate"))
    || !TruthyString(Param(query, "endDate"))
  }

  /** The JSON answer and its HTTP status. */
  datatype Response = Response(status: nat, body: Result<seq<Row>, BookingError>)

  /** What the call into the service did: returned a result, or threw. */
  datatype ServiceOutcome = Returned(result: Result<seq<Row>, BookingError>) | Threw

  /** The status the handler answers with: 200, 400, or 500 from its own `catch`. */
  function StatusFor(outcome: ServiceOutcome): (status: nat)
    ensures status == 200 <==> outcome.Returned? && outcome.result.Success?
    ensures status == 400 <==> outcome.Returned? && outcome.result.Failure?
    ensures status == 500 <==> outcome.Threw?
  {
    match outcome
    case Returned(result) => if result.Success? then 200 else 400
    case Threw => 500
  }

  /** The handler with the service call made against the store. */
  function HandleGetBookings(store: Store, query: QueryString, parseDate: string -> int): (resp: Response)
    ensures resp.status == 200 <==> resp.body.Success?
    ensures resp.status == 200 || resp.status == 400
    ensures resp.body == GetBookings(store, ParseQuery(query), parseDate)
  {
    var result := GetBookings(store, ParseQuery(query), parseDate);
    Response(StatusFor(Returned(result)), result)
  }

  /** A missing or empty project id, start or end is answered 400 "Missing required parameters". */
  lemma MissingQueryParameterIs400(store: Store, query: QueryString, parseDate: string -> int)
    ensures LacksRequired(query) <==>
      HandleGetBookings(store, query, parseDate) == Response(400, Failure(MissingParameters))
  {
    var params := ParseQuery(query);
    assert MissingRequired(params) <==> LacksRequired(query);
  }
}
