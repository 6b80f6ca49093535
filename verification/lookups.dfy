/**
 * The reference lookups of the pipeline service. Every lookup is a left
 * join: an unresolved reference yields an absent value and never drops the
 * row. A reference that `$toObjectId` cannot convert aborts the whole
 * aggregation, but only where the conversion is actually evaluated.
 */
module Lookups {
  import opened Wrappers
  import opened Records
  import opened ObjectIds

  /** The aggregation failed because a reference is not an ObjectId string. */
  datatype LookupError = ConversionFailed

  /** `$toObjectId`: null stays null, a 24-hex string becomes its id, anything else fails. */
  function ToObjectId(ref: Option<Id>): Result<Option<Id>, LookupError> {
    match ref
    case None => Success(None)
    case Some(r) => if IsObjectIdString(r) then Success(Some(CanonicalId(r))) else Failure(ConversionFailed)
  }

  /** The reference names a document of the collection. */
  predicate Resolves<T>(m: map<Id, T>, ref: Option<Id>) {
    ref.Some? && IsObjectIdString(ref.value) && CanonicalId(ref.value) in m
  }

  /**
   * A join whose conversion runs in an `$addFields` stage before the lookup
   * (zone, supplier and contractor): it is evaluated for every row.
   */
  function JoinById<T>(m: map<Id, T>, ref: Option<Id>): (r: Result<Option<T>, LookupError>)
    ensures r.Failure? <==> ref.Some? && !IsObjectIdString(ref.value)
    ensures r.Success? ==> (r.value.Some? <==> Resolves(m, ref))
    ensures r.Success? && r.value.Some? ==> r.value.value == m[CanonicalId(ref.value)]
  {
    match ToObjectId(ref)
    case Failure(e) => Failure(e)
    case Success(key) =>
      if key.Some? && key.value in m then Success(Some(m[key.value])) else Success(None)
  }

  /**
   * A join whose conversion sits inside the lookup's own pipeline (the
   * sub-project lookup): it runs once per foreign document, so against an
   * empty collection it is never evaluated.
   */
  function JoinByIdInPipeline<T>(m: map<Id, T>, ref: Option<Id>): (r: Result<Option<T>, LookupError>)
    ensures r.Failure? <==> |m| > 0 && ref.Some? && !IsObjectIdString(ref.value)
    ensures r.Success? ==> (r.value.Some? <==> Resolves(m, ref))
    ensures r.Success? && r.value.Some? ==> r.value.value == m[CanonicalId(ref.value)]
  {
    if |m| == 0 then Success(None) else JoinById(m, ref)
  }

  /** Some reference of the list names the resource. */
  predicate ReferencedBy(d: ResourceDoc, refs: seq<Id>) {
    exists i :: 0 <= i < |refs| && IsObjectIdString(refs[i]) && CanonicalId(refs[i]) == d.id
  }

  /** The patterns of the referenced resources, in collection order. */
  function PatternsOf(coll: seq<ResourceDoc>, refs: seq<Id>): (ps: seq<string>)
    ensures |ps| <= |coll|
    ensures forall p :: p in ps <==> exists k :: 0 <= k < |coll| && ReferencedBy(coll[k], refs) && coll[k].pattern == Some(p)
  {
    if coll == [] then []
    else
      var rest := PatternsOf(coll[1..], refs);
      assert forall p :: (exists k :: 1 <= k < |coll| && ReferencedBy(coll[k], refs) && coll[k].pattern == Some(p))
                      <==> (exists k :: 0 <= k < |coll[1..]| && ReferencedBy(coll[1..][k], refs) && coll[1..][k].pattern == Some(p));
      if ReferencedBy(coll[0], refs) && coll[0].pattern.Some? then [coll[0].pattern.value] + rest else rest
  }

  /**
   * The resource lookup: not unwound, so the result is a list; its
   * conversion runs once per resource document, so it fails only when the
   * collection is non-empty and a reference is not an ObjectId string.
   */
  function ResourcePatterns(coll: seq<ResourceDoc>, refs: seq<Id>): (r: Result<seq<string>, LookupError>)
    ensures r.Failure? <==> coll != [] && exists i :: 0 <= i < |refs| && !IsObjectIdString(refs[i])
    ensures r.Success? ==> r.value == PatternsOf(coll, refs)
  {
    if coll != [] && exists i :: 0 <= i < |refs| && !IsObjectIdString(refs[i]) then Failure(ConversionFailed)
    else Success(PatternsOf(coll, refs))
  }

  /**
   * The user lookup: by external id, never converted; a null responsible
   * person joins no user.
   */
  function MatchingUsers(users: seq<User>, ref: Option<string>): (us: seq<User>)
    ensures ref.None? ==> us == []
    ensures forall u :: u in us <==> ref.Some? && u in users && u.clerkUserId == ref
    ensures |us| <= |users|
  {
    if ref.None? || users == [] then []
    else (if users[0].clerkUserId == ref then [users[0]] else []) + MatchingUsers(users[1..], ref)
  }

  /**
   * `$unwind` with `preserveNullAndEmptyArrays`: one output per joined
   * document, or a single one with the field absent when none joined.
   */
  function UnwindPreserving<T>(xs: seq<T>): (r: seq<Option<T>>)
    ensures |r| == if xs == [] then 1 else |xs|
    ensures xs == [] ==> r == [None]
    ensures forall k :: 0 <= k < |xs| ==> r[k] == Some(xs[k])
  {
    if xs == [] then [None] else seq(|xs|, k requires 0 <= k < |xs| => Some(xs[k]))
  }

  /** Everything the lookups attach to one row. */
  datatype Joined = Joined(
    zone: Option<Zone>,
    subProject: Option<SubProject>,
    resourceIcons: seq<string>,
    supplier: Option<Company>,
    contractor: Option<Company>,
    user: Option<User>)

  /** The user the `k`-th unwound row carries: none past the end of the list. */
  function UnwoundUser(users: seq<User>, k: nat): Option<User> {
    if k < |users| then Some(users[k]) else None
  }

  /** One joined row per user unwound; the other joins are at most one document. */
  function WithUsers(zone: Option<Zone>, sub: Option<SubProject>, icons: seq<string>,
                     supplier: Option<Company>, contractor: Option<Company>, users: seq<User>): (js: seq<Joined>)
    ensures |js| == if users == [] then 1 else |users|
    ensures forall j :: j in js ==>
      j.zone == zone && j.subProject == sub && j.resourceIcons == icons
      && j.supplier == supplier && j.contractor == contractor
      && (j.user.Some? ==> j.user.value in users)
      && (users == [] <==> j.user.None?)
    ensures forall k :: 0 <= k < |js| ==> js[k].user == UnwoundUser(users, k)
  {
    var us := UnwindPreserving(users);
    seq(|us|, k requires 0 <= k < |us| => Joined(zone, sub, icons, supplier, contractor, us[k]))
  }

  /** No two users share an external id. */
  predicate UniqueClerkIds(users: seq<User>) {
    forall i, j :: 0 <= i < j < |users| && users[i].clerkUserId.Some? ==> users[i].clerkUserId != users[j].clerkUserId
  }

  /** A list in which no user carries the id joins nothing. */
  lemma {:induction false} NoneMatching(users: seq<User>, ref: Option<string>)
    requires forall k :: 0 <= k < |users| ==> users[k].clerkUserId != ref
    ensures MatchingUsers(users, ref) == []
  {
    if ref.Some? && users != [] {
      NoneMatching(users[1..], ref);
    }
  }

  /** With unique external ids the user join multiplies no row. */
  lemma {:induction false} AtMostOneUserWhenUnique(users: seq<User>, ref: Option<string>)
    requires UniqueClerkIds(users)
    ensures |MatchingUsers(users, ref)| <= 1
  {
    if ref.Some? && users != [] {
      assert UniqueClerkIds(users[1..]) by {
        forall i, j | 0 <= i < j < |users[1..]| && users[1..][i].clerkUserId.Some?
          ensures users[1..][i].clerkUserId != users[1..][j].clerkUserId
        {
          assert users[1..][i] == users[i + 1] && users[1..][j] == users[j + 1];
        }
      }
      AtMostOneUserWhenUnique(users[1..], ref);
      if users[0].clerkUserId == ref {
        forall k | 0 <= k < |users[1..]| ensures users[1..][k].clerkUserId != ref {
          assert users[1..][k] == users[k + 1];
        }
        NoneMatching(users[1..], ref);
      }
    }
  }
}
