/** The little string conversions JavaScript performs implicitly in the
    client: a number in a template literal, `String(bool)`, and the
    `value || fallback` idiom. */
module Text {
  import opened Types

  predicate IsDigit(c: char) { '0' <= c <= '9' }

  predicate AllDigits(s: string) { forall i :: 0 <= i < |s| ==> IsDigit(s[i]) }

  function Digit(d: nat): (c: char)
    requires d < 10
    ensures IsDigit(c) && c as int - '0' as int == d
  {
    ('0' as int + d) as char
  }

  /** A non-negative number as a template literal renders it (base 10,
      no sign, no leading zeros). */
  function DecimalString(n: nat): (r: string)
    ensures |r| > 0 && AllDigits(r)
    ensures |r| > 1 ==> r[0] != '0'
    decreases n
  {
    if n < 10 then [Digit(n)] else DecimalString(n / 10) + [Digit(n % 10)]
  }

  /** Reading a digit string back as a number: the inverse of DecimalString. */
  function DecimalValue(s: string): nat
    requires AllDigits(s)
  {
    if s == [] then 0 else 10 * DecimalValue(s[..|s| - 1]) + (s[|s| - 1] as int - '0' as int)
  }

  lemma {:induction false} DecimalRoundTrip(n: nat)
    ensures DecimalValue(DecimalString(n)) == n
    decreases n
  {
    if n >= 10 {
      var r := DecimalString(n);
      assert r[..|r| - 1] == DecimalString(n / 10);
      DecimalRoundTrip(n / 10);
    }
  }

  /** Two different numbers never render alike. */
  lemma DecimalStringInjective(m: nat, n: nat)
    requires DecimalString(m) == DecimalString(n)
    ensures m == n
  {
    DecimalRoundTrip(m);
    DecimalRoundTrip(n);
  }

  /** `String(b)` for a boolean. */
  function BoolString(b: bool): (r: string)
    ensures r == "true" || r == "false"
    ensures (r == "true") == b
  {
    if b then "true" else "false"
  }

  /** `value || fallback` where value is an optional string: an absent value
      and the empty string are both falsy in JavaScript. */
  function OrElse(value: Option<string>, fallback: string): (r: string)
    ensures r == fallback || (value == Some(r) && r != "")
    ensures value.Some? && value.value != "" ==> r == value.value
    ensures fallback != "" ==> r != ""
  {
    if value.Some? && value.value != "" then value.value else fallback
  }

  /** The alert every screen shows when a request throws. */
  function ConnectionAlert(message: string): (a: Alert)
    ensures a.title == "Error del Servidor"
    ensures |a.message| >= |message| && a.message[|a.message| - |message|..] == message
  {
    Alert("Error del Servidor", "No se pudo conectar: " + message)
  }
}
