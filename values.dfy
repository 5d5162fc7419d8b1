/**
 * The PHP values that flow through the client: array entries, their
 * truthiness (`?:`, `!`, `empty()`), `??` and the `(int)` cast.
 */
module Values {
  import opened Errors

  /** One PHP value. A PHP list is `List`, a string-keyed array `Dict`. */
  datatype Value =
    | Null
    | Bool(b: bool)
    | Int(i: int)
    | Real(r: real)
    | Str(s: string)
    | List(items: seq<Value>)
    | Dict(entries: map<string, Value>)

  /** PHP's conversion to bool. */
  predicate Truthy(v: Value) {
    match v
    case Null => false
    case Bool(b) => b
    case Int(i) => i != 0
    case Real(r) => r != 0.0
    case Str(s) => s != "" && s != "0"
    case List(xs) => xs != []
    case Dict(m) => m != map[]
  }

  /** `$m[$k] ?? …`: the entry, when it is set and not null. */
  function Lookup(m: map<string, Value>, k: string): (r: Option<Value>)
    ensures r.Some? <==> k in m && m[k] != Null
    ensures r.Some? ==> r.value == m[k]
  {
    if k in m && m[k] != Null then Some(m[k]) else None
  }

  /** The float-to-int cast of PHP: truncation toward zero. */
  function Trunc(x: real): (n: int)
    ensures 0.0 <= x ==> 0 <= n && n as real <= x < n as real + 1.0
    ensures x < 0.0 ==> n <= 0 && n as real - 1.0 < x <= n as real
  {
    if x >= 0.0 then x.Floor else -((-x).Floor)
  }

  predicate IsDigit(c: char) { '0' <= c <= '9' }

  predicate IsSpace(c: char) { c == ' ' || c == '\t' || c == '\n' || c == '\r' || c == '\U{000B}' || c == '\U{000C}' }

  predicate AllDigits(s: string) { forall i :: 0 <= i < |s| ==> IsDigit(s[i]) }

  /** Length of the longest prefix of `s` whose characters all satisfy the digit test. */
  function DigitRun(s: string): (n: nat)
    ensures n <= |s| && AllDigits(s[..n])
    ensures n < |s| ==> !IsDigit(s[n])
  {
    if s == [] || !IsDigit(s[0]) then 0 else 1 + DigitRun(s[1..])
  }

  /** Length of the leading white space that PHP skips before a number. */
  function SpaceRun(s: string): (n: nat)
    ensures n <= |s| && forall i :: 0 <= i < n ==> IsSpace(s[i])
    ensures n < |s| ==> !IsSpace(s[n])
  {
    if s == [] || !IsSpace(s[0]) then 0 else 1 + SpaceRun(s[1..])
  }

  /** The number a string of decimal digits denotes. */
  function DigitsValue(ds: string): nat
    requires AllDigits(ds)
  {
    if ds == [] then 0 else 10 * DigitsValue(ds[..|ds| - 1]) + (ds[|ds| - 1] - '0') as nat
  }

  /** PHP's `(int)` of a string: white space, an optional sign, then the longest digit run. */
  function StrToInt(s: string): int {
    var t := s[SpaceRun(s)..];
    if t != [] && (t[0] == '-' || t[0] == '+') then
      var magnitude: int := DigitsValue(t[1..][..DigitRun(t[1..])]);
      if t[0] == '-' then -magnitude else magnitude
    else
      DigitsValue(t[..DigitRun(t)])
  }

  /** PHP's `(int)` cast. */
  function ToInt(v: Value): int {
    match v
    case Null => 0
    case Bool(b) => if b then 1 else 0
    case Int(i) => i
    case Real(r) => Trunc(r)
    case Str(s) => StrToInt(s)
    case List(xs) => if xs == [] then 0 else 1
    case Dict(m) => if m == map[] then 0 else 1
  }

  /** Decimal digits of a natural number, as PHP writes an int. */
  function NatToDecimal(n: nat): (s: string)
    ensures s != [] && AllDigits(s)
  {
    var d := ['0' + (n % 10) as char];
    if n < 10 then d else NatToDecimal(n / 10) + d
  }

  /** PHP's `(string)` of an int. */
  function IntToDecimal(n: int): string {
    if n < 0 then "-" + NatToDecimal(-n) else NatToDecimal(n)
  }

  lemma {:induction false} NatToDecimalValue(n: nat)
    ensures DigitsValue(NatToDecimal(n)) == n
  {
    var d := ['0' + (n % 10) as char];
    if n >= 10 {
      var s := NatToDecimal(n / 10) + d;
      assert s[..|s| - 1] == NatToDecimal(n / 10);
      NatToDecimalValue(n / 10);
    }
  }

  lemma AllDigitsRun(s: string)
    requires AllDigits(s)
    ensures DigitRun(s) == |s|
  {
  }

  /** Casting an int's decimal text back with `(int)` gives the int: the two conversions are inverse. */
  lemma DecimalRoundTrip(n: int)
    ensures StrToInt(IntToDecimal(n)) == n
  {
    var s := IntToDecimal(n);
    if n < 0 {
      var ds := NatToDecimal(-n);
      assert SpaceRun(s) == 0;
      assert s[0..] == s;
      assert s[1..] == ds;
      AllDigitsRun(ds);
      assert ds[..|ds|] == ds;
      NatToDecimalValue(-n);
    } else {
      var ds := NatToDecimal(n);
      assert SpaceRun(ds) == 0;
      assert ds[0..] == ds;
      AllDigitsRun(ds);
      assert ds[..|ds|] == ds;
      NatToDecimalValue(n);
    }
  }

  /** `(int)` leaves an int alone and reads an int's own decimal text back to it. */
  lemma ToIntOfInt(n: int)
    ensures ToInt(Int(n)) == n && ToInt(Str(IntToDecimal(n))) == n
  {
    DecimalRoundTrip(n);
  }
}
