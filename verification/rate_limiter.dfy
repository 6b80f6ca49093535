/**
 * The fixed-window request limiter: one counter per client key, shared by
 * every limiter instance, reset once its window has passed. The clock is a
 * parameter.
 */
module RateLimiter {
  import opened Wrappers

  const DefaultLimit: int := 100
  const DefaultWindowMs: int := 60000
  const TooManyRequestsStatus: nat := 429
  const TooManyRequestsMessage: string := "Too many requests"
  const UnknownClient: string := "unknown"

  /** A client's counter and the time after which it is discarded. */
  datatype Entry = Entry(count: int, resetTime: int)

  /** The module-level table of counters. */
  type Counters = map<string, Entry>

  /** Whether the request reached the next handler or was answered 429. */
  datatype Decision = Passed | Rejected

  /** What the middleware does with a request: hand it on, or answer it itself. */
  datatype Reply = Next | Answer(status: nat, message: string)

  /** A rejected request is answered 429 with a fixed message; any other is handed on. */
  function ReplyFor(d: Decision): (r: Reply)
    ensures r.Next? <==> d == Passed
    ensures d == Rejected ==> r == Answer(429, "Too many requests")
  {
    match d
    case Passed => Next
    case Rejected => Answer(TooManyRequestsStatus, TooManyRequestsMessage)
  }

  /** The `x-forwarded-for` header, or "unknown" when it is absent or empty. */
  function ClientKey(forwardedFor: Option<string>): (key: string)
    ensures key != ""
    ensures forwardedFor.Some? && forwardedFor.value != "" ==> key == forwardedFor.value
    ensures forwardedFor.None? || forwardedFor.value == "" ==> key == UnknownClient
  {
    if forwardedFor.Some? && forwardedFor.value != "" then forwardedFor.value else UnknownClient
  }

  /** An entry is live up to and including its reset time. */
  predicate Live(counters: Counters, key: string, now: int) {
    key in counters && now <= counters[key].resetTime
  }

  /** One request through the middleware. */
  function Step(counters: Counters, forwardedFor: Option<string>, now: int, limit: int, windowMs: int)
    : (r: (Counters, Decision))
    ensures var key := ClientKey(forwardedFor);
      && r.0.Keys == counters.Keys + {key}
      && (forall k :: k in counters && k != key ==> r.0[k] == counters[k])
      && r.0[key] == (if Live(counters, key, now) then Entry(counters[key].count + 1, counters[key].resetTime)
                      else Entry(1, now + windowMs))
      && (r.1 == Rejected <==> r.0[key].count > limit)
  {
    var key := ClientKey(forwardedFor);
    var cleaned := if key in counters && counters[key].resetTime < now then counters - {key} else counters;
    var entry := if key !in cleaned then Entry(1, now + windowMs) else Entry(cleaned[key].count + 1, cleaned[key].resetTime);
    var next := cleaned[key := entry];
    (next, if entry.count > limit then Rejected else Passed)
  }

  /** A sequence of requests from one client at the given times. */
  function Run(counters: Counters, forwardedFor: Option<string>, times: seq<int>, limit: int, windowMs: int)
    : (ds: seq<Decision>)
    ensures |ds| == |times|
    decreases |times|
  {
    if times == [] then []
    else
      var (next, d) := Step(counters, forwardedFor, times[0], limit, windowMs);
      [d] + Run(next, forwardedFor, times[1..], limit, windowMs)
  }

  /**
   * While the client's entry stays live, its `i`-th further request
   * passes exactly when the count it raises stays within the limit.
   */
  lemma {:induction false} LiveEntryCounts(counters: Counters, forwardedFor: Option<string>, times: seq<int>, limit: int, windowMs: int)
    requires var key := ClientKey(forwardedFor);
      key in counters && forall i :: 0 <= i < |times| ==> times[i] <= counters[key].resetTime
    ensures var c := counters[ClientKey(forwardedFor)].count;
      forall i :: 0 <= i < |times| ==>
        (Run(counters, forwardedFor, times, limit, windowMs)[i] == Passed <==> c + i + 1 <= limit)
  {
    if times != [] {
      var key := ClientKey(forwardedFor);
      var (next, d) := Step(counters, forwardedFor, times[0], limit, windowMs);
      assert next[key] == Entry(counters[key].count + 1, counters[key].resetTime);
      LiveEntryCounts(next, forwardedFor, times[1..], limit, windowMs);
      var ds := Run(counters, forwardedFor, times, limit, windowMs);
      assert ds == [d] + Run(next, forwardedFor, times[1..], limit, windowMs);
      forall i | 1 <= i < |times|
        ensures ds[i] == Passed <==> counters[key].count + i + 1 <= limit
      {
        assert times[1..][i - 1] == times[i];
      }
    }
  }

  /**
   * Within one window the first `limit` requests of a client with no live
   * entry pass and every later one is rejected.
   */
  lemma FirstLimitRequestsPass(counters: Counters, forwardedFor: Option<string>, times: seq<int>, limit: int, windowMs: int)
    requires |times| >= 1
    requires !Live(counters, ClientKey(forwardedFor), times[0])
    requires forall i :: 0 <= i < |times| ==> times[i] <= times[0] + windowMs
    ensures forall i :: 0 <= i < |times| ==>
      (Run(counters, forwardedFor, times, limit, windowMs)[i] == Passed <==> i < limit)
  {
    var key := ClientKey(forwardedFor);
    var (next, d) := Step(counters, forwardedFor, times[0], limit, windowMs);
    assert next[key] == Entry(1, times[0] + windowMs);
    forall i | 0 <= i < |times[1..]| ensures times[1..][i] <= next[key].resetTime {
      assert times[1..][i] == times[i + 1];
    }
    LiveEntryCounts(next, forwardedFor, times[1..], limit, windowMs);
    var ds := Run(counters, forwardedFor, times, limit, windowMs);
    assert ds == [d] + Run(next, forwardedFor, times[1..], limit, windowMs);
  }

  /** With the defaults, the 101st request of a window is the first one rejected. */
  lemma DefaultsAdmitOneHundred(counters: Counters, forwardedFor: Option<string>, times: seq<int>)
    requires |times| == 101
    requires !Live(counters, ClientKey(forwardedFor), times[0])
    requires forall i :: 0 <= i < |times| ==> times[i] <= times[0] + DefaultWindowMs
    ensures var ds := Run(counters, forwardedFor, times, DefaultLimit, DefaultWindowMs);
      (forall i :: 0 <= i < 100 ==> ds[i] == Passed) && ds[100] == Rejected
  {
    FirstLimitRequestsPass(counters, forwardedFor, times, DefaultLimit, DefaultWindowMs);
  }

  /**
   * The names every plain object inherits from `Object.prototype`. The
   * counter table is a plain object, so for these keys a lookup finds the
   * inherited member rather than a missing entry.
   */
  const InheritedNames: set<string> := {
    "constructor", "__proto__", "hasOwnProperty", "isPrototypeOf",
    "propertyIsEnumerable", "toLocaleString", "toString", "valueOf",
    "__defineGetter__", "__defineSetter__", "__lookupGetter__", "__lookupSetter__"
  }

  /**
   * One request as the middleware handles it on a plain-object table. For
   * an inherited name the lookup is truthy and has no reset time, so the
   * entry is neither discarded nor created; the increment yields NaN,
   * which is never above the limit, and the request passes.
   */
  function StepAsWritten(counters: Counters, forwardedFor: Option<string>, now: int, limit: int, windowMs: int)
    : (r: (Counters, Decision))
    ensures ClientKey(forwardedFor) in InheritedNames ==> r == (counters, Passed)
    ensures ClientKey(forwardedFor) !in InheritedNames ==> r == Step(counters, forwardedFor, now, limit, windowMs)
  {
    if ClientKey(forwardedFor) in InheritedNames then (counters, Passed)
    else Step(counters, forwardedFor, now, limit, windowMs)
  }

  /** A sequence of requests from one client through the plain-object table. */
  function RunAsWritten(counters: Counters, forwardedFor: Option<string>, times: seq<int>, limit: int, windowMs: int)
    : (ds: seq<Decision>)
    ensures |ds| == |times|
    decreases |times|
  {
    if times == [] then []
    else
      var (next, d) := StepAsWritten(counters, forwardedFor, times[0], limit, windowMs);
      [d] + RunAsWritten(next, forwardedFor, times[1..], limit, windowMs)
  }

  /** A client whose key is an inherited name is never limited, whatever the limit. */
  lemma {:induction false} InheritedKeysNeverLimited(counters: Counters, forwardedFor: Option<string>, times: seq<int>, limit: int, windowMs: int)
    requires ClientKey(forwardedFor) in InheritedNames
    ensures forall i :: 0 <= i < |times| ==> RunAsWritten(counters, forwardedFor, times, limit, windowMs)[i] == Passed
  {
    if times != [] {
      InheritedKeysNeverLimited(counters, forwardedFor, times[1..], limit, windowMs);
      var ds := RunAsWritten(counters, forwardedFor, times, limit, windowMs);
      assert ds == [Passed] + RunAsWritten(counters, forwardedFor, times[1..], limit, windowMs);
    }
  }

  /** For every other key the plain-object table behaves as the map. */
  lemma {:induction false} AsWrittenAgreesOnOwnKeys(counters: Counters, forwardedFor: Option<string>, times: seq<int>, limit: int, windowMs: int)
    requires ClientKey(forwardedFor) !in InheritedNames
    ensures RunAsWritten(counters, forwardedFor, times, limit, windowMs) == Run(counters, forwardedFor, times, limit, windowMs)
    decreases |times|
  {
    if times != [] {
      var (next, d) := Step(counters, forwardedFor, times[0], limit, windowMs);
      AsWrittenAgreesOnOwnKeys(next, forwardedFor, times[1..], limit, windowMs);
    }
  }

  /**
   * A client sending `x-forwarded-for: constructor` gets its 101st request
   * of a window through under the defaults, where the map rejects it.
   */
  lemma ConstructorKeyEscapesLimit()
    ensures var times := seq(101, i => 0);
      && RunAsWritten(map[], Some("constructor"), times, DefaultLimit, DefaultWindowMs)[100] == Passed
      && Run(map[], Some("constructor"), times, DefaultLimit, DefaultWindowMs)[100] == Rejected
  {
    var times := seq(101, i => 0);
    InheritedKeysNeverLimited(map[], Some("constructor"), times, DefaultLimit, DefaultWindowMs);
    DefaultsAdmitOneHundred(map[], Some("constructor"), times);
  }
}
