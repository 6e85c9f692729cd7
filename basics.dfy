/** Small value-level helpers shared by the feed and payment models: optional values,
    pass/fail outcomes, JavaScript's `|| 0` fallback, and the string operations the
    feed lookup relies on (lower-casing and substring search). */
module Basics {

  /** An optional field of a stored record: None is a missing (undefined or null) field. */
  datatype Option<+T> = None | Some(value: T) {
    function GetOr(default: T): T {
      match this
      case Some(v) => v
      case None => default
    }
  }

  /** The result of an operation that either completes or fails with an error. */
  datatype Outcome<+E> = Pass | Fail(error: E)

  /** `x || 0` on a numeric field: a missing field (and 0 itself) reads as 0. */
  function OrZero(x: Option<int>): (r: int)
    ensures x.Some? ==> r == x.value
    ensures x.None? ==> r == 0
  {
    x.GetOr(0)
  }

  /** `Math.abs` */
  function Abs(x: int): (r: int)
    ensures r >= 0
    ensures r == x || r == -x
  {
    if x < 0 then -x else x
  }

  /** `Math.max` */
  function Max(a: int, b: int): (r: int)
    ensures r >= a && r >= b
    ensures r == a || r == b
  {
    if a < b then b else a
  }

  /** `Math.min` */
  function Min(a: int, b: int): (r: int)
    ensures r <= a && r <= b
    ensures r == a || r == b
  {
    if a < b then a else b
  }

  /** The sign facts about products that totals and costs need. */
  lemma ProductSign(a: int, b: int)
    ensures a >= 0 && b >= 0 ==> a * b >= 0
    ensures a == 0 ==> a * b == 0
  {
  }

  /** Writing a position twice keeps the second write. */
  lemma UpdateTwice<T>(s: seq<T>, k: nat, a: T, b: T)
    requires k < |s|
    ensures s[k := a][k := b] == s[k := b]
  {
  }

  /** A non-empty sequence holds its first element. */
  lemma FirstIsMember<T>(s: seq<T>)
    ensures s == [] || s[0] in s
  {
  }

  /** Appending to a concatenation appends to its second part. */
  lemma AppendAssoc<T>(a: seq<T>, b: seq<T>, c: seq<T>)
    ensures a + b + c == a + (b + c)
  {
  }

  /** Lower-casing of one character; only the ASCII letters A-Z are mapped. */
  function LowerChar(c: char): char {
    if 'A' <= c <= 'Z' then (c as int + 32) as char else c
  }

  lemma LowerCharIdempotent(c: char)
    ensures LowerChar(LowerChar(c)) == LowerChar(c)
  {
  }

  /** `String.prototype.toLowerCase`, restricted to ASCII letters. */
  function Lower(s: string): (r: string)
    ensures |r| == |s|
    ensures forall i :: 0 <= i < |s| ==> r[i] == LowerChar(s[i])
  {
    if s == [] then [] else [LowerChar(s[0])] + Lower(s[1..])
  }

  /** Lower-casing twice is lower-casing once, so comparisons of lower-cased strings
      do not depend on the case their arguments arrive in. */
  lemma LowerIdempotent(s: string)
    ensures Lower(Lower(s)) == Lower(s)
  {
    forall i | 0 <= i < |s|
      ensures Lower(Lower(s))[i] == Lower(s)[i]
    {
      LowerCharIdempotent(s[i]);
    }
  }

  /** t occurs in s starting at position i. */
  predicate OccursAt(s: string, t: string, i: int) {
    0 <= i && i + |t| <= |s| && s[i..i + |t|] == t
  }

  /** `s.includes(t)`: t occurs in s as a contiguous piece. */
  predicate Contains(s: string, t: string) {
    exists i :: 0 <= i <= |s| && OccursAt(s, t, i)
  }

  /** Every string contains the empty string. */
  lemma ContainsEmpty(s: string)
    ensures Contains(s, "")
  {
    assert OccursAt(s, "", 0);
  }

  /** Every string contains itself. */
  lemma ContainsSelf(s: string)
    ensures Contains(s, s)
  {
    assert OccursAt(s, s, 0);
  }
}
