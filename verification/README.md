# Booking aggregation engine — a Dafny model

This project models the core of projsite's booking calendar. For one
construction project and a time window, it gathers the bookings of three
families:

- shipments, whose legs are each matched, flattened to one row per leg and enriched;
- waste collections;
- resource bookings.

The project settings gate the families, and the rows are returned as one list.

## What each module models

- `MatchConditions` models the match-condition builder. It builds the conditions as data and evaluates them with a semantics function (`Holds`/`Matches`). `Selected` is an independent reference predicate, and the two are proved equal.
- `ShipmentFlattener` models the flattening transform, in which a shipment becomes one row per leg, plus the per-leg project filter.
- `Lookups` models the left joins: zone, sub-project, resource, supplier, contractor and user. It includes the ObjectId conversions that can make the aggregation fail.
- `Projection` models the common row shape.
- `FamilyPipelines` composes match, flatten, join and project into each family's pipeline.
- `Bookings` models `getBookings`: parameter checks, project lookup, gating, colours and the union in the order shipment, waste, resource.
- `BookingRoute` models the `GET` handler: query parsing, `parseArray`, `isConfirmed` and the HTTP status.
- Small helpers of the same application are modelled too:
  - the ObjectId validator (`ObjectIds`);
  - `isValidBookingType` (`BookingTypes`);
  - the two zod schemas (`BookingParamsSchema`, `DateRangeSchema`);
  - the permission flattening of `getUserMembership` (`UserMembership`);
  - the fixed-window rate limiter (`RateLimiter`).

## How stored data is modelled

- Stored documents are immutable datatypes (`Records`), and a store is a set of maps keyed by the canonical id.
- JavaScript values whose truthiness matters are the `JsValue` datatype.
- Time is an integer number of milliseconds.
- Parsing a date string is a function parameter.
- The clock of the rate limiter is a parameter.

## The per-leg filter: as written and as intended

The code and its evident intent disagree about one behaviour: the per-leg filter is meant to keep a leg row when the leg's own project is the requested one.

The shipment conditions, however, hold the project id only inside `$elemMatch`. So the stage at pipeline-service.ts line 219 compares each leg's project with an undefined value, which is sent as null. `KeepProjectLegsAsWritten` models that stage as written, and the first finding below records it.

The rest of the model uses the corrected filter, `KeepProjectLegs`. It keeps a row when the leg's own project is the requested one, and it checks no other leg condition again. Every statement about shipment rows below is therefore about the corrected pipeline.

## Model

| member | source | states |
|---|---|---|
| ObjectIds.MatchObjectIdPattern | apps/projsite-mongo/src/utils/validation.ts:9-15 | the pattern `^[0-9a-fA-F]{24}$` matches exactly the strings of 24 hexadecimal digits of either case |
| ObjectIds.ValidateIdParam | apps/projsite-mongo/src/utils/validation.ts:7-18 | the id parameter is accepted, unchanged, exactly when it is a string of 24 hex digits; every other string is refused with "Invalid ObjectId format" |
| ObjectIds.CanonicalIdIsCanonical | projsite-mongo/src/services/bookings-service.ts:38-40 | the canonical spelling of an ObjectId string is again an ObjectId string, is lower-case, and is its own canonical spelling |
| ObjectIds.CaseInsensitiveIdentity | projsite-mongo/src/services/bookings-service.ts:38-40 | a spelling of a valid ObjectId string that differs only in the case of its hex letters is valid too and names the same project |
| BookingTypes.ParseFamily | projsite-mongo/src/types/booking.ts:13-17 | a string names a booking family exactly when `isValidBookingType` accepts it, and the family's name reads back as that string |
| BookingTypes.AcceptedIffFamilyName | projsite-mongo/src/types/booking.ts:15-17 | a string is accepted exactly when it is the name of one of the three families |
| BookingTypes.FamilyNameRoundTrip | projsite-mongo/src/types/booking.ts:13-17 | every family's name is accepted and parses back to that family |
| BookingTypes.AcceptedNamesAreLowerCase | projsite-mongo/src/types/booking.ts:16 | the check is case-sensitive: a name containing an upper-case letter, such as "Shipment", is rejected |
| BookingTypes.NoAcceptedNameExtendsAnother | projsite-mongo/src/types/booking.ts:16 | the empty string and every proper extension of an accepted name, such as "shipments", are rejected |
| BookingParamsSchema.ValidateBookingParams | projsite-mongo/src/types/bookingSchemas.ts:3-7 | the parameters pass exactly when the project id is a 24-hex-digit string, an optional booking type is one of the three names and an optional id is 24 hex digits; a refusal lists one to three issues: "required" for the project id exactly when it is absent, a wrong-type issue for exactly the fields present but not strings, the invalid-project-id, invalid-enum and invalid-booking-id issues exactly when that field is a string failing its pattern or the enum |
| BookingParamsSchema.IssueMessage | projsite-mongo/src/types/bookingSchemas.ts:4-6 | the invalid-project-id issue reads "Invalid project ID" and the invalid-booking-id issue "Invalid booking ID"; the schema sets no text for the other issues |
| BookingParamsSchema.EnumAgreesWithIsValidBookingType | projsite-mongo/src/types/bookingSchemas.ts:5 | the schema's enum accepts exactly the strings `isValidBookingType` accepts |
| DateRangeSchema.ParseDateRange | packages/projsite-types/src/bookings/schema.ts:3-34 | a date range parses exactly when both dates are valid, `isAllDay` is a boolean and the end is after the start; a missing date gives its required issue, a string, number or date that is not a valid date gives its invalid-date issue, any other value a not-a-date issue, and a missing or non-boolean `isAllDay` its own issue; the `from \|\| to` refinement never fires, because a date is always truthy, and with valid fields the only failure is the end-not-after-start refinement |
| DateRangeSchema.IssueMessage | packages/projsite-types/src/bookings/schema.ts:12-34 | a missing start reads "Please select a start date", a missing end "Please select an end date", the empty-range refinement "Please select a date range" and the end-after-start refinement "End date must be after the start date"; the schema sets no text for the other issues |
| DateRangeSchema.EqualEndpointsRejected | packages/projsite-types/src/bookings/schema.ts:32-34 | a range whose end equals its start is rejected by the refinement |
| MatchConditions.BaseConditionsMeaning | projsite-mongo/src/services/pipeline-service.ts:16-30 | the base conditions hold of a placement exactly when it is in the project, contained in the window, and in the listed zones, sub-projects and resources |
| MatchConditions.HeaderConditionsMeaning | projsite-mongo/src/services/pipeline-service.ts:40-47 | the header conditions hold exactly when the contractor is listed, the request status matches a non-empty filter, the record is not deleted and the confirmation agrees with the flag |
| MatchConditions.BuildMatchConditionsMeaning | projsite-mongo/src/services/pipeline-service.ts:4-50 | a record matches the built conditions exactly when the reference selection predicate selects it, for every family and query |
| MatchConditions.WindowIsContainment | projsite-mongo/src/services/pipeline-service.ts:16-20 | a matched waste or resource booking lies inside the window (from at or after start, to at or before end), which is containment, not overlap |
| MatchConditions.ShipmentMatchIsPerLeg | projsite-mongo/src/services/pipeline-service.ts:33-38 | a shipment none of whose legs satisfies all the base conditions together does not match, even when each condition holds on some leg |
| MatchConditions.SmallParcelsNeverMatch | projsite-mongo/src/services/pipeline-service.ts:33-35 | a shipment flagged as a small parcel never matches |
| MatchConditions.ConfirmationIsTriState | projsite-mongo/src/services/pipeline-service.ts:45-46 | a confirmed-only query refuses records explicitly unconfirmed, the other query refuses every record that is not explicitly unconfirmed, so a record with no flag matches only a confirmed-only query; a record whose `is_deleted` is not exactly false never matches |
| MatchConditions.EmptyPlacementListIsNoFilter | projsite-mongo/src/services/pipeline-service.ts:22-30 | an empty zone, sub-project or resource list selects the same records as no list at all |
| MatchConditions.EmptyHeaderFilterIsNoFilter | projsite-mongo/src/services/pipeline-service.ts:40-45 | an empty contractor list or an empty request status selects the same records as no filter |
| MatchConditions.UnfilteredQuerySelectsWindow | projsite-mongo/src/services/pipeline-service.ts:15-47 | with no optional filter, an undeleted booking of the project that lies inside the window and is not explicitly unconfirmed is matched |
| ShipmentFlattener.Flatten | projsite-mongo/src/services/pipeline-service.ts:199-218 | a shipment with N legs gives exactly N rows; row i carries the shipment, leg i and index i; no legs give no rows |
| ShipmentFlattener.RangeElements | projsite-mongo/src/services/pipeline-service.ts:204 | the index range holds exactly the integers from its lower bound up to, but not including, the leg count, in order |
| ShipmentFlattener.FlattenStages | projsite-mongo/src/services/pipeline-service.ts:199-218 | pairing the index range with the legs and unwinding the pairs is the flattening |
| ShipmentFlattener.FlattenRoundTrip | projsite-mongo/src/services/pipeline-service.ts:199-218 | the legs of the flattened rows, in order, are the shipment's legs |
| ShipmentFlattener.KeepProjectLegs | projsite-mongo/src/services/pipeline-service.ts:219 | the intended filter keeps a row exactly when its own leg belongs to the requested project, and keeps no more rows than it is given |
| ShipmentFlattener.KeepProjectLegsAsWritten | projsite-mongo/src/services/pipeline-service.ts:219 | as written, the filter keeps a row exactly when its leg has no project at all |
| ShipmentFlattener.AsWrittenDropsEveryProjectLeg | projsite-mongo/src/services/pipeline-service.ts:219 | a shipment whose legs all belong to the project keeps no row as written, and one row per leg as intended |
| ShipmentFlattener.KeptRowPresence | projsite-mongo/src/services/pipeline-service.ts:212-219 | leg i, with index i, survives the filter exactly when it belongs to the requested project |
| ShipmentFlattener.KeptRowShape | projsite-mongo/src/services/pipeline-service.ts:212-219 | every surviving row is the shipment's own leg at its recorded index, and that leg is in the project |
| Lookups.JoinById | projsite-mongo/src/services/pipeline-service.ts:137-175 | a joined reference fails only for a present id that is not 24 hex digits; otherwise it yields the document with that id, or nothing |
| Lookups.JoinByIdInPipeline | projsite-mongo/src/services/pipeline-service.ts:53-81 | a join that converts inside the lookup fails only for a bad id when the foreign collection is non-empty; otherwise it yields the document with that id, or nothing |
| Lookups.PatternsOf | projsite-mongo/src/services/pipeline-service.ts:114-135 | the resource icons are exactly the patterns of the referenced resources that have a pattern, no more than there are resources |
| Lookups.ResourcePatterns | projsite-mongo/src/services/pipeline-service.ts:114-135 | the resource join fails only on a bad id in a non-empty collection; otherwise it yields the referenced patterns, and a missing list yields none |
| Lookups.MatchingUsers | projsite-mongo/src/services/pipeline-service.ts:177-192 | the users joined are exactly those whose clerk id equals the responsible person; a missing person joins none |
| Lookups.UnwindPreserving | projsite-mongo/src/services/pipeline-service.ts:83-88 | unwinding with null preservation keeps a row for an empty join and one row per joined element otherwise |
| Lookups.WithUsers | projsite-mongo/src/services/pipeline-service.ts:177-192 | the user unwind never drops a row: it gives max(1, matching users) rows, each carrying the other joins unchanged, the k-th carrying the k-th user, or no user when none joined |
| Lookups.NoneMatching | projsite-mongo/src/services/pipeline-service.ts:182-186 | when no user carries the responsible person's clerk id, the join is empty |
| Lookups.AtMostOneUserWhenUnique | projsite-mongo/src/services/pipeline-service.ts:177-192 | when clerk ids are unique, at most one user is joined, so the unwind yields exactly one row |
| Projection.ProjectLegRow | projsite-mongo/src/services/pipeline-service.ts:226-258 | a leg row is typed shipment and carries the shipment's id, info, confirmation and request status, the leg's window, status, direction and index, and the small-parcel flag; its colour is the zone's colour, or the neutral grey when the zone or its colour is missing; the zone, sub-project, supplier and contractor names are those of the joined documents, absent when none joined; the contact fields are the unwound user's, all absent when no user joined |
| Projection.ProjectFlatRow | projsite-mongo/src/services/pipeline-service.ts:279-307 | a waste or resource row carries its family, its own window, info, confirmation and request status and the given colour; its waste fields only when it is waste and the joined resource icons only when it is a resource; the sub-project and contractor names are the joined documents', absent when none joined; the contact fields are the unwound user's, all absent when no user joined |
| FamilyPipelines.Filter | projsite-mongo/src/services/pipeline-service.ts:197 | the `$match` stage keeps exactly the elements that satisfy the predicate |
| FamilyPipelines.FilterAppend | projsite-mongo/src/services/pipeline-service.ts:197 | `$match` keeps the collection order: filtering a concatenation gives the filtered first part followed by the filtered second part |
| FamilyPipelines.CollectAllSpec | projsite-mongo/src/services/bookings-service.ts:119-134 | composing stages fails exactly when some element's stage fails; otherwise every output row comes from some element and every element's rows appear |
| FamilyPipelines.LegRowsOfMembers | projsite-mongo/src/services/pipeline-service.ts:197-219 | with the corrected per-leg filter, a leg row reaches the lookups exactly when its shipment is selected and its own leg is in the project |
| FamilyPipelines.EnrichLegRow | projsite-mongo/src/services/pipeline-service.ts:220-258 | enriching a leg row fails exactly when one of its converted references is not 24 hex digits; otherwise it gives max(1, matching users) rows that each describe the leg and show its zone; the k-th row names the sub-project, contractor and supplier the store resolves the references to (none when a reference resolves to nothing), carries the patterns of the referenced resources, and shows the k-th matching user, or no user when none matches |
| FamilyPipelines.ShipmentRowsSound | projsite-mongo/src/services/pipeline-service.ts:195-261 | with the corrected per-leg filter, every shipment row describes leg i of a selected shipment, and that leg belongs to the project |
| FamilyPipelines.ShipmentRowsComplete | projsite-mongo/src/services/pipeline-service.ts:195-261 | with the corrected per-leg filter, every leg of a selected shipment that belongs to the project yields at least one row when the pipeline succeeds |
| FamilyPipelines.ShipmentRowsFailure | projsite-mongo/src/services/pipeline-service.ts:91-175 | the shipment pipeline fails exactly when some surviving leg row has a reference that cannot be converted |
| FamilyPipelines.ShipmentRowCount | projsite-mongo/src/services/pipeline-service.ts:177-192 | with unique clerk ids, the pipeline yields exactly one row per surviving leg |
| FamilyPipelines.EnrichFlatRow | projsite-mongo/src/services/pipeline-service.ts:265-307 | enriching a waste or resource booking fails exactly when a converted reference is bad; otherwise it gives max(1, matching users) rows describing the booking; the k-th row names the sub-project and contractor the store resolves the references to, shows the k-th matching user or none, and a resource row carries the patterns of the referenced resources |
| FamilyPipelines.FlatRowsSound | projsite-mongo/src/services/pipeline-service.ts:265-309 | every waste or resource row describes a selected booking of that family with the family's colour |
| FamilyPipelines.FlatRowsComplete | projsite-mongo/src/services/pipeline-service.ts:265-309 | every selected waste or resource booking yields at least one row when the pipeline succeeds |
| Bookings.ErrorMessage | projsite-mongo/src/services/bookings-service.ts:34-44 | a missing parameter gives "Missing required parameters" and a missing project "Project not found"; a caught error carries its library's message, which is not modelled |
| Bookings.WasteColor | projsite-mongo/src/services/bookings-service.ts:46-48 | the waste colour is never empty; it is the configured colour when that is non-empty and "#8CE542" otherwise |
| Bookings.ResourceColor | projsite-mongo/src/services/bookings-service.ts:46-49 | the resource colour is never empty; it is the configured colour when that is non-empty and "#428AE5" otherwise |
| Bookings.EnabledFamilies | projsite-mongo/src/services/bookings-service.ts:55-121 | shipments are queried unless `shipment_module` is exactly false, waste only when `waste_module` is truthy, resources always and last, in the order shipment, waste, resource |
| Bookings.GetBookings | projsite-mongo/src/services/bookings-service.ts:20-139 | an empty required parameter gives "Missing required parameters"; a malformed project id is a caught error; an unknown project gives "Project not found"; otherwise the union runs |
| Bookings.FamilyRowsTyped | projsite-mongo/src/services/bookings-service.ts:57-111 | every row of a family's pipeline is typed with that family |
| Bookings.UnionGrouped | projsite-mongo/src/services/bookings-service.ts:119-134 | in the union, each row belongs to an enabled family, and rows of an earlier family come before rows of a later one |
| Bookings.BookingsInUnionOrder | projsite-mongo/src/services/bookings-service.ts:123-134 | in a successful answer, shipment rows precede waste rows, which precede resource rows |
| Bookings.ShipmentModuleOffHidesShipments | projsite-mongo/src/services/bookings-service.ts:56 | when `shipment_module` is exactly false, no shipment row is returned |
| Bookings.WasteModuleOffHidesWaste | projsite-mongo/src/services/bookings-service.ts:78 | when `waste_module` is falsy or the settings are missing, no waste row is returned |
| Bookings.ResourceBookingsAlwaysIncluded | projsite-mongo/src/services/bookings-service.ts:99-117 | every selected resource booking appears in a successful answer with the resource colour, whatever the settings |
| Bookings.EnabledShipmentLegsIncluded | projsite-mongo/src/services/bookings-service.ts:55-75 | with shipments enabled and the corrected per-leg filter, every leg of a selected shipment that belongs to the project appears in a successful answer |
| Bookings.EnabledWasteIncluded | projsite-mongo/src/services/bookings-service.ts:77-97 | with waste enabled, every selected waste booking appears in a successful answer with the waste colour |
| Bookings.GetBookingsSound | projsite-mongo/src/services/bookings-service.ts:51-134 | every returned row comes from an enabled family and describes a record that family's query selects |
| Bookings.ConversionFailureIsSomeFamily | projsite-mongo/src/services/bookings-service.ts:133-138 | the answer is a caught conversion error exactly when some enabled family's pipeline fails |
| JsStrings.Trim | projsite-mongo/src/routes/booking.ts:28 | the trimmed string is a slice of the input that starts and ends without JavaScript whitespace, with only whitespace cut away |
| JsStrings.TrimKeepsTrimmed | projsite-mongo/src/routes/booking.ts:28 | trimming an already-trimmed string returns it unchanged |
| JsStrings.JoinSplit | projsite-mongo/src/routes/booking.ts:28 | joining the pieces of a split with the separator gives back the original string |
| JsStrings.SplitJoin | projsite-mongo/src/routes/booking.ts:28 | splitting a join of separator-free pieces gives back the pieces |
| JsStrings.SplitCountsSeparators | apps/projsite-mongo/src/services/user-membership-service.ts:99-100 | a split yields a single piece exactly when the separator does not occur |
| BookingRoute.ParseArray | projsite-mongo/src/routes/booking.ts:27-28 | an absent or empty value gives no list; otherwise the items are exactly the non-empty trimmed comma-separated pieces of the value, each non-empty, trimmed and comma-free |
| BookingRoute.ParseArrayJoin | projsite-mongo/src/routes/booking.ts:27-28 | a list of non-empty, trimmed, comma-free items survives being written comma-joined and parsed back |
| BookingRoute.ParseArrayIgnoresPadding | projsite-mongo/src/routes/booking.ts:27-28 | a value made of comma-separated pieces, each blank or an item padded with whitespace, parses to exactly the items in order: padding and empty pieces are ignored |
| BookingRoute.DropEmpty | projsite-mongo/src/routes/booking.ts:28 | the kept strings are exactly the non-empty ones |
| BookingRoute.ParseIsConfirmed | projsite-mongo/src/routes/booking.ts:35 | `isConfirmed` is false exactly when the query value is the text "false" |
| BookingRoute.ParseQuery | projsite-mongo/src/routes/booking.ts:23-47 | the project id and both dates are the parameter or "" when missing; each of the four lists is its parameter split at commas with the pieces trimmed and the empty ones dropped, absent when the parameter is missing or empty; the request status passes through; the confirmation flag is always set, false exactly for "false" and true otherwise, including when it is missing |
| BookingRoute.ParseQueryRoundTrip | projsite-mongo/src/routes/booking.ts:23-47 | a query whose lists are absent or non-empty lists of clean items, written as a query string, parses back to itself |
| BookingRoute.StatusFor | projsite-mongo/src/routes/booking.ts:49-53 | the status is 200 for a successful result, 400 for a failed one and 500 when the service throws |
| BookingRoute.HandleGetBookings | projsite-mongo/src/routes/booking.ts:21-54 | the handler answers the service's result, with 200 exactly when it succeeded and 400 otherwise |
| BookingRoute.MissingQueryParameterIs400 | projsite-mongo/src/routes/booking.ts:37-50 | a missing or empty project id, start or end is answered 400 with the missing-parameter failure, and only those queries are |
| UserMembership.Get | apps/projsite-mongo/src/services/user-membership-service.ts:90-93 | reading a key yields the value of its entry, and nothing exactly when there is no entry |
| UserMembership.PutSpec | apps/projsite-mongo/src/services/user-membership-service.ts:90-93 | setting a key keeps keys distinct, gives that key the new value and leaves every other key's value unchanged |
| UserMembership.SpreadSpec | apps/projsite-mongo/src/services/user-membership-service.ts:90-93 | spreading one object over another keeps keys distinct; the result has the union of keys, and the overlay's value wins |
| UserMembership.CombinedPermissions | apps/projsite-mongo/src/services/user-membership-service.ts:90-93 | the merged permissions have the keys of both objects, and the custom value wins over the role default |
| UserMembership.PermissionOf | apps/projsite-mongo/src/services/user-membership-service.ts:99-101 | the action is the key up to its first underscore, and the subject is the rest; a key without an underscore has the empty subject |
| UserMembership.Permissions | apps/projsite-mongo/src/services/user-membership-service.ts:96-106 | every truthy entry yields its pair, every pair comes from a truthy entry, and falsy entries yield nothing |
| UserMembership.OneEntryPerTruthyKey | apps/projsite-mongo/src/services/user-membership-service.ts:96-106 | the permission list has exactly one pair per truthy entry |
| UserMembership.TrailingUnderscoreCollides | apps/projsite-mongo/src/services/user-membership-service.ts:99-101 | the keys "read" and "read_" flatten to the same pair, so the flattening is not injective |
| UserMembership.FirstMatch | apps/projsite-mongo/src/services/user-membership-service.ts:15-21 | the chosen membership is the first one with the clerk id and level, and there is none exactly when no membership matches |
| UserMembership.LevelNameOf | apps/projsite-mongo/src/services/user-membership-service.ts:43-78 | a project-level membership whose level id resolves is named after that project, and a contractor-level one after that company; an id that resolves to nothing, or a missing id, gives no name; a present id that is not an ObjectId string is, by a modelling choice, also given no name (the aggregation raises instead) |
| UserMembership.GetUserMembership | apps/projsite-mongo/src/services/user-membership-service.ts:11-112 | the result is null exactly when no membership of the user has the level; otherwise it keeps the first such membership's fields, names its level and carries its role and default permissions when the role resolves |
| UserMembership.MembershipPermissionsMeaning | apps/projsite-mongo/src/services/user-membership-service.ts:89-111 | a processed membership's permissions are exactly the pairs of the keys that are truthy after its custom permissions overlay its role's defaults |
| UserMembership.TruthyKeysYieldPermissions | apps/projsite-mongo/src/services/user-membership-service.ts:89-106 | a key whose effective value is truthy contributes its pair to the membership's permissions |
| UserMembership.PermissionsComeFromTruthyKeys | apps/projsite-mongo/src/services/user-membership-service.ts:89-106 | every permission pair comes from a key whose effective value, custom over default, is truthy |
| RateLimiter.ClientKey | apps/projsite-postgres/src/middleware/rate-limiter.ts:18 | the client key is the forwarded-for header when non-empty and "unknown" otherwise |
| RateLimiter.ReplyFor | apps/projsite-postgres/src/middleware/rate-limiter.ts:36-47 | a rejected request is answered with status 429 and the message "Too many requests"; exactly the passed requests are handed to the next handler |
| RateLimiter.Step | apps/projsite-postgres/src/middleware/rate-limiter.ts:17-47 | on a table that counts every key alike (the corrected behaviour of the second finding), a request restarts an expired or absent counter at 1 with a fresh window, otherwise counts one more; it leaves other clients alone and is rejected exactly when the count exceeds the limit |
| RateLimiter.LiveEntryCounts | apps/projsite-postgres/src/middleware/rate-limiter.ts:22-45 | while a client's window lasts, its i-th further request passes exactly when the count it raises stays within the limit |
| RateLimiter.FirstLimitRequestsPass | apps/projsite-postgres/src/middleware/rate-limiter.ts:22-45 | within one fresh window, exactly the first `limit` requests of a client pass |
| RateLimiter.DefaultsAdmitOneHundred | apps/projsite-postgres/src/middleware/rate-limiter.ts:13-15 | with the default limit and window, a client's first 100 requests of a window pass and the 101st is rejected with 429, on a table that counts every key alike |
| RateLimiter.StepAsWritten | apps/projsite-postgres/src/middleware/rate-limiter.ts:11-37 | on the plain-object table, a client whose key is a name every object inherits passes and changes no counter; every other client is handled as by the map |
| RateLimiter.InheritedKeysNeverLimited | apps/projsite-postgres/src/middleware/rate-limiter.ts:11-37 | on the plain-object table, a client whose key is an inherited name has every request pass, whatever the limit |
| RateLimiter.AsWrittenAgreesOnOwnKeys | apps/projsite-postgres/src/middleware/rate-limiter.ts:11-37 | for every key that is not an inherited name, the plain-object table decides every request as the map does |
| RateLimiter.ConstructorKeyEscapesLimit | apps/projsite-postgres/src/middleware/rate-limiter.ts:11-37 | with the defaults, the 101st request of a window from a client sending `x-forwarded-for: constructor` passes on the plain-object table and is rejected by the map |

## Left out

- Database I/O, connection handling, the driver and the HTTP framework are left out. Each store is a set of immutable maps and sequences, and a request is a value.
- Converting date strings to instants is a parameter of the model, because the JavaScript date parser is not modelled. An invalid date in the bookings query is left out; `DateRangeSchema` models an invalid date as an absent value.
- Floating-point numbers, NaN and fractional values are left out. Numbers are integers.
- ObjectId construction from anything other than a 24-hex-digit string is left out. This covers bson's 12-byte string form and numeric forms.
- UserMembership.GetUserMembership: treats a role or level id that cannot be converted to an ObjectId as unresolved. The aggregation raises an error instead.
- UserMembership.LevelNameOf: treats a present level id that is not an ObjectId string as unresolved and gives no name. The aggregation raises at its `$toObjectId` stage instead, so `getUserMembership` rejects.
- DateRangeSchema.IssueMessage, BookingParamsSchema.IssueMessage: zod's default text for issues the schema gives no message is not modelled.
- UserMembership.Spread: ignores JavaScript's rule that integer-like keys come first in object key order. Spreading a truthy value that is not an object is also left out.
- Projection.ProjectLegRow: does not model the fields that pass through unchanged:
  - `unbooked`, `rejection_reason`, `ntm_data_provided` and `location`;
  - `package`, `booking_importer_id` and `created_by_service`.
- Projection.ProjectFlatRow: leaves out the same pass-through fields.
- Configured colours that are not strings are left out.
- BookingRoute.ParseQuery: takes the query string already decoded, with one value per key. URL decoding and repeated keys are left out.
- The route's own wiring of the service is not modelled. As written, the route (routes/booking.ts lines 3, 18 and 49) imports `BookingsService` from `../services/BookingsService`, builds an instance and calls `bookingsService.getBookings(params)` with one argument. The service class in services/bookings-service.ts line 20 declares `getBookings(db, params)` as a static method with two arguments, and `../services/BookingsService` is not part of this model. If that import resolves to this class, the instance has no `getBookings`, so every request throws and gets the `catch`'s 500. `HandleGetBookings` instead calls `GetBookings` on the store, so it and `MissingQueryParameterIs400` describe the route as evidently intended, not as wired. `StatusFor` models the 500 answer of the route's `catch` for a service that throws.
- Bookings.ErrorMessage: does not model the text of a caught library error, only which error was caught.
- Bookings.BookingsInUnionOrder: promises the order of families only. The order of rows within a family follows the store sequences and is not promised by the source.
- RateLimiter.Step: models the counter table as a map, the evidently intended behaviour; the second finding below records how the plain object differs for inherited names. The table is explicit state instead of a module-level object. Date.now is a parameter. The `await next()` and interleaving of concurrent requests are left out.
- RateLimiter.Run: states only that there is one decision per request. Its meaning is stated by `LiveEntryCounts` and `FirstLimitRequestsPass`.
- FamilyPipelines.ShipmentRows: uses the corrected per-leg filter, `KeepProjectLegs`, not the stage as written; the first finding records the difference.
- Bookings.GetBookings: its shipment rows come from the corrected per-leg filter, as in `FamilyPipelines.ShipmentRows`.
- RateLimiter.StepAsWritten: does not model the side effect of the increment on an inherited member, such as a `count` property added to `Object.prototype`.
- Lookups.PatternsOf: states which patterns are joined and not their order; the model keeps collection order, which the source does not promise either.
- Lookups.MatchingUsers: states which users are joined and not their order.
- The other services and routes of the application are outside this model: projects, zones, companies, resources and the tRPC API.

## Findings

| source | as written | input that shows it | evidently intended | confidence | as-written member | corrected member |
|---|---|---|---|---|---|---|
| projsite-mongo/src/services/pipeline-service.ts:219 | The per-leg filter compares `shipment_legs.project_id` with `matchConditions.project_id`. For shipments that top-level key does not exist: the project id sits inside `$elemMatch`. The undefined value is sent as null, so only legs with a null or missing project survive. | A shipment in project P with one leg in P that matches the window. No row is returned for it. | Keep each leg row whose own `project_id` equals the requested project id. | not executed | ShipmentFlattener.AsWrittenDropsEveryProjectLeg | ShipmentFlattener.KeepProjectLegs |
| apps/projsite-postgres/src/middleware/rate-limiter.ts:11-37 | The counter table is a plain object `{}`. For a key such as "constructor" or "toString", `store[ip]` finds the inherited member: it is truthy and has no `resetTime`, so it is never deleted and never replaced. `count++` makes NaN, and `NaN > limit` is false, so the request passes. | 101 requests within one minute, each with the header `x-forwarded-for: constructor`. All 101 pass. | Count every client key alike, as a map or a prototype-free object would, so the 101st request is rejected. | not executed | RateLimiter.ConstructorKeyEscapesLimit | RateLimiter.Step |
