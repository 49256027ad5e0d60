/** Values shared by every part of the marketplace model: optional values,
    the error kinds a handler answers with, record ids, and the JavaScript
    truthiness tests the handlers apply to request and record fields. */
module Base {

  /** A field that may be absent (or null). */
  datatype Option<+T> = None | Some(value: T) {
    function GetOr(default: T): T {
      match this
      case Some(v) => v
      case None => default
    }

    /** This value when present, else `other`. */
    function Or(other: Option<T>): Option<T> {
      if Some? then this else other
    }
  }

  /** The ways a handler can fail: the HTTP error helpers it calls
      (unauthorized, forbidden, badRequest, notFound) and a thrown Error. */
  datatype Error = Unauthorized | Forbidden | BadRequest | NotFound | Thrown

  datatype Result<+T> = Ok(value: T) | Err(error: Error)

  /** Store ids start at 1, so a present id is always truthy. */
  type Id = n: int | 1 <= n witness 1

  /** A point in time (Date.now() in milliseconds, or an ISO date the model
      does not format). */
  type Timestamp = nat

  /** JavaScript truthiness of an optional number: absent, null and 0 are falsy. */
  predicate RealTruthy(o: Option<real>) { o.Some? && o.value != 0.0 }

  predicate IntTruthy(o: Option<int>) { o.Some? && o.value != 0 }

  /** JavaScript truthiness of an optional string: absent, null and "" are falsy. */
  predicate StrTruthy(o: Option<string>) { o.Some? && o.value != "" }

  /** `x || d` on an optional number. */
  function RealOr(o: Option<real>, d: real): real {
    if RealTruthy(o) then o.value else d
  }

  /** `x || d` on an optional string. */
  function StrOr(o: Option<string>, d: string): string {
    if StrTruthy(o) then o.value else d
  }

  /** A stored optional value interpolated into a template string: the store
      reads an unset attribute back as null, which prints as `null`. */
  function Interpolate(o: Option<string>): string {
    if o.Some? then o.value else "null"
  }

  predicate IsUpper(c: char) { 'A' <= c <= 'Z' }

  /** String.prototype.toLowerCase, on ASCII letters. */
  function Lower(s: string): (r: string)
    ensures |r| == |s|
    ensures forall i :: 0 <= i < |s| ==> !IsUpper(r[i])
    ensures forall i :: 0 <= i < |s| && !IsUpper(s[i]) ==> r[i] == s[i]
  {
    if s == [] then []
    else
      var c := s[0];
      [if IsUpper(c) then (c as int + 32) as char else c] + Lower(s[1..])
  }

  lemma LowerIdempotent(s: string)
    ensures Lower(Lower(s)) == Lower(s)
  {
    var l := Lower(s);
    assert forall i :: 0 <= i < |l| ==> Lower(l)[i] == l[i];
  }

  function Digit(d: nat): char
    requires d < 10
  {
    ('0' as int + d) as char
  }

  predicate IsDigit(c: char) { '0' <= c <= '9' }

  /** The decimal text of a natural number, as `${n}` prints it. */
  function Decimal(n: nat): (r: string)
    ensures |r| >= 1
    ensures forall i :: 0 <= i < |r| ==> IsDigit(r[i])
    ensures n >= 10 ==> r[0] != '0'
  {
    if n < 10 then [Digit(n)] else Decimal(n / 10) + [Digit(n % 10)]
  }

  /** The number a string of decimal digits denotes. */
  function DecimalValue(s: string): nat
    requires forall i :: 0 <= i < |s| ==> IsDigit(s[i])
  {
    if s == [] then 0
    else
      assert IsDigit(s[|s| - 1]);
      DecimalValue(s[..|s| - 1]) * 10 + (s[|s| - 1] as int - '0' as int)
  }

  /** Printing a number and reading it back gives the number. */
  lemma {:induction false} DecimalRoundTrip(n: nat)
    ensures DecimalValue(Decimal(n)) == n
  {
    if n >= 10 {
      var p := Decimal(n / 10);
      var r := p + [Digit(n % 10)];
      assert r[..|r| - 1] == p;
      DecimalRoundTrip(n / 10);
    }
  }

  /** Different numbers print differently. */
  lemma DecimalInjective(m: nat, n: nat)
    requires Decimal(m) == Decimal(n)
    ensures m == n
  {
    DecimalRoundTrip(m);
    DecimalRoundTrip(n);
  }
}
