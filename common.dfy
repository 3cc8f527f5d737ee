/**
 * Shared vocabulary of the hospital backend model: document ids, timestamps,
 * optional values, the outcome of a controller action, and lists without
 * repeated elements.
 */
module Common {

  /** A MongoDB ObjectId, abstracted to a natural number. */
  type Id = nat

  /** A JavaScript Date, as milliseconds since the epoch. */
  type Time = int

  const MsPerDay: int := 86400000

  /** An optional request field or reference (`undefined`/`null` is None). */
  datatype Option<+T> = None | Some(value: T) {
    function GetOr(default: T): T {
      match this
      case Some(v) => v
      case None => default
    }
  }

  /**
   * A request field that a query casts (an ObjectId, a date): absent or
   * falsy, well formed, or present but impossible to cast. A cast that
   * fails makes the query throw.
   */
  datatype Param<+T> = Missing | Given(value: T) | Malformed

  /**
   * What a controller action sends back: either a success payload, or the
   * HTTP status code of the failure together with its `message` text.
   */
  datatype Result<+T> = Ok(value: T) | Err(code: nat, message: string)

  /** JavaScript truthiness of an optional string: present and non-empty. */
  predicate Truthy(s: Option<string>) {
    s.Some? && s.value != ""
  }

  /** `a || b` on optional strings: keep `a` when truthy, otherwise `b`. */
  function OrElse(a: Option<string>, b: Option<string>): (r: Option<string>)
    ensures Truthy(a) ==> r == a
    ensures !Truthy(a) ==> r == b
  {
    if Truthy(a) then a else b
  }

  const ServerError: string := "Server Error"

  /**
   * The `message` of the error MongoDB raises when a write would break a
   * unique index (the driver's full text also names the index and the key).
   */
  const DuplicateKey: string := "E11000 duplicate key error"

  /** `findById(k)`: the document stored under `k`, or None. */
  function Lookup<T>(m: map<Id, T>, k: Id): (r: Option<T>)
    ensures r.Some? <==> k in m
    ensures r.Some? ==> r.value == m[k]
  {
    if k in m then Some(m[k]) else None
  }

  /** Each element occurs at most once. */
  ghost predicate NoDuplicates<T>(s: seq<T>) {
    forall i, j :: 0 <= i < j < |s| ==> s[i] != s[j]
  }

  /** In a list without repetitions every element has multiplicity at most one. */
  lemma {:induction false} NoDuplicatesOnce<T>(s: seq<T>)
    requires NoDuplicates(s)
    ensures forall x :: multiset(s)[x] <= 1
  {
    if s != [] {
      var n := |s| - 1;
      assert s == s[..n] + [s[n]];
      NoDuplicatesOnce(s[..n]);
      assert s[n] !in s[..n];
    }
  }

  /** An element found at two positions has multiplicity at least two. */
  lemma RepeatCountsTwice<T>(s: seq<T>, i: nat, j: nat)
    requires i < j < |s|
    ensures s[i] == s[j] ==> multiset(s)[s[i]] >= 2
  {
    assert s == s[..j] + [s[j]] + s[j + 1..];
    assert s[i] in s[..j];
  }
}
