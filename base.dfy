/** Shared vocabulary of the backend model: optional values, the errors the
    services throw, identifiers, time units, and a few list queries that the
    store lookups are built from. */
module Base {

  datatype Option<+T> = None | Some(value: T)

  /** A document identifier (a Mongo ObjectId, abstracted to a number). */
  type ObjectId = nat

  /** A point in time or a duration, in milliseconds. */
  type Millis = int

  const SECOND_MS: int := 1000
  const MINUTE_MS: int := 60 * SECOND_MS
  const HOUR_MS: int := 60 * MINUTE_MS
  const DAY_MS: int := 24 * HOUR_MS

  /** A thrown error. The services throw `ErrorHandler(message, statusCode)`;
      errors raised by the runtime (a `TypeError`) or by the store carry no
      status code. */
  datatype AppError = AppError(statusCode: Option<int>, message: string)

  function HttpError(statusCode: int, message: string): AppError
  {
    AppError(Some(statusCode), message)
  }

  /** The error a property read on `null` raises. */
  const TypeError: AppError := AppError(None, "TypeError: Cannot read properties of null")

  /** The error a unique index raises on a duplicate key. */
  const DuplicateKey: AppError := AppError(None, "E11000 duplicate key error")

  datatype Result<+T> = Ok(value: T) | Err(error: AppError)

  /** JavaScript truthiness of an optional string: present and non-empty. */
  predicate Truthy(s: Option<string>)
  {
    s.Some? && s.value != ""
  }

  /** The index of the first element satisfying `p`, as `Array.prototype.findIndex`. */
  function FirstIndex<T>(s: seq<T>, p: T -> bool): (r: Option<nat>)
    ensures r.Some? ==> r.value < |s| && p(s[r.value])
    ensures r.Some? ==> forall j :: 0 <= j < r.value ==> !p(s[j])
    ensures r.None? <==> forall j :: 0 <= j < |s| ==> !p(s[j])
  {
    if s == [] then None
    else if p(s[0]) then Some(0)
    else match FirstIndex(s[1..], p)
      case None => None
      case Some(i) => Some(i + 1)
  }

  /** The first element satisfying `p`, as `Array.prototype.find` or a
      store's `findOne`. */
  function Find<T(!new)>(s: seq<T>, p: T -> bool): (r: Option<T>)
    ensures r.Some? ==> r.value in s && p(r.value)
    ensures r.None? <==> forall x :: x in s ==> !p(x)
  {
    match FirstIndex(s, p)
    case None => None
    case Some(i) => Some(s[i])
  }

  /** The elements satisfying `p`, in their original order. */
  function Filter<T(!new)>(s: seq<T>, p: T -> bool): (r: seq<T>)
    ensures |r| <= |s|
    ensures forall x :: x in r <==> x in s && p(x)
  {
    if s == [] then []
    else if p(s[0]) then [s[0]] + Filter(s[1..], p)
    else Filter(s[1..], p)
  }

  /** How many elements satisfy `p`, as a store's `countDocuments`. */
  function Count<T(!new)>(s: seq<T>, p: T -> bool): (n: nat)
    ensures n <= |s|
    ensures n == 0 <==> forall x :: x in s ==> !p(x)
  {
    if s == [] then 0
    else (if p(s[0]) then 1 else 0) + Count(s[1..], p)
  }

  lemma {:induction false} CountIsFilterLength<T(!new)>(s: seq<T>, p: T -> bool)
    ensures Count(s, p) == |Filter(s, p)|
  {
    if s != [] {
      CountIsFilterLength(s[1..], p);
    }
  }

  /** Two predicates that agree on every element select the same elements. */
  lemma {:induction false} AgreeingFilter<T(!new)>(s: seq<T>, p: T -> bool, q: T -> bool)
    requires forall x :: x in s ==> p(x) == q(x)
    ensures Filter(s, p) == Filter(s, q) && Count(s, p) == Count(s, q)
  {
    if s != [] {
      assert s[0] in s;
      assert forall x :: x in s[1..] ==> x in s;
      AgreeingFilter(s[1..], p, q);
    }
  }

  /** The elements in reverse order: a store sorted newest first returns the
      documents inserted last first. */
  function Reverse<T>(s: seq<T>): (r: seq<T>)
    ensures |r| == |s| && forall k :: 0 <= k < |s| ==> r[k] == s[|s| - 1 - k]
  {
    seq(|s|, k requires 0 <= k < |s| => s[|s| - 1 - k])
  }

  function Max(a: int, b: int): int
  {
    if a < b then b else a
  }
}
