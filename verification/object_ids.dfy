/**
 * The 24-hex-digit identifier predicate (the pattern `^[0-9a-fA-F]{24}$`),
 * the route-parameter validator built on it, and the identity of the
 * ObjectId a valid string denotes.
 */
module ObjectIds {
  import opened Wrappers
  import opened JsValues

  const ObjectIdLength: nat := 24

  /** The message attached to a rejected route id. */
  const InvalidObjectIdMessage: string := "Invalid ObjectId format"

  predicate IsHexDigit(c: char) {
    '0' <= c <= '9' || 'a' <= c <= 'f' || 'A' <= c <= 'F'
  }

  /** Exactly 24 characters, each a hexadecimal digit of either case. */
  predicate IsObjectIdString(s: string) {
    |s| == ObjectIdLength && forall i :: 0 <= i < |s| ==> IsHexDigit(s[i])
  }

  /**
   * The anchored match of `^[0-9a-fA-F]{24}$`: scan at most 24 hex digits,
   * then demand that the string has ended exactly there.
   */
  method MatchObjectIdPattern(s: string) returns (matched: bool)
    ensures matched <==> (|s| == 24 && forall i :: 0 <= i < |s| ==> IsHexDigit(s[i]))
  {
    var i := 0;
    while i < |s| && i < ObjectIdLength && IsHexDigit(s[i])
      invariant 0 <= i <= |s| && i <= ObjectIdLength
      invariant forall j :: 0 <= j < i ==> IsHexDigit(s[j])
    {
      i := i + 1;
    }
    matched := i == ObjectIdLength && i == |s|;
  }

  /** Why the `id` route parameter was refused. */
  datatype IdIssue = IdRequired | IdNotAString | InvalidObjectIdFormat

  /**
   * `idParamSchema` on the `id` field: a string that matches the pattern is
   * accepted unchanged; the refinement never throws, so every other string
   * is refused with "Invalid ObjectId format".
   */
  function ValidateIdParam(id: JsValue): (r: Result<string, IdIssue>)
    ensures r.Success? <==> id.Str? && |id.s| == 24 && forall i :: 0 <= i < |id.s| ==> IsHexDigit(id.s[i])
    ensures r.Success? ==> r.value == id.s
    ensures id.Str? && !r.Success? ==> r.error == InvalidObjectIdFormat
  {
    match id
    case Undefined => Failure(IdRequired)
    case Str(s) => if IsObjectIdString(s) then Success(s) else Failure(InvalidObjectIdFormat)
    case _ => Failure(IdNotAString)
  }

  function LowerHexDigit(c: char): char {
    if 'A' <= c <= 'F' then (c as int - 'A' as int + 'a' as int) as char else c
  }

  /**
   * The canonical spelling of the ObjectId a valid string denotes: an
   * ObjectId is twelve bytes, so the case of its hex digits is forgotten.
   */
  function CanonicalId(s: string): (r: string)
    ensures |r| == |s|
    ensures forall i :: 0 <= i < |s| ==> r[i] == LowerHexDigit(s[i])
  {
    if s == [] then [] else [LowerHexDigit(s[0])] + CanonicalId(s[1..])
  }

  /** Canonicalising keeps a string valid, only lowers case, and is idempotent. */
  lemma CanonicalIdIsCanonical(s: string)
    requires IsObjectIdString(s)
    ensures IsObjectIdString(CanonicalId(s))
    ensures forall i :: 0 <= i < |s| ==> !('A' <= CanonicalId(s)[i] <= 'F')
    ensures CanonicalId(CanonicalId(s)) == CanonicalId(s)
  {
  }

  /** Upper- and lower-case spellings of one id are both accepted and denote the same ObjectId. */
  lemma CaseInsensitiveIdentity(s: string, t: string)
    requires IsObjectIdString(s) && |t| == |s|
    requires forall i :: 0 <= i < |s| ==> LowerHexDigit(t[i]) == LowerHexDigit(s[i])
    ensures IsObjectIdString(t)
    ensures CanonicalId(t) == CanonicalId(s)
  {
    forall i | 0 <= i < |t|
      ensures IsHexDigit(t[i])
    {
      assert IsHexDigit(s[i]);
    }
  }
}
