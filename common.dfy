/** Small shared vocabulary: optional values, results with an error, and the
    JSON value shape that the acquisition code receives from the endpoint. */
module Common {

  datatype Option<+T> = None | Some(value: T)

  datatype Result<+T, +E> = Ok(value: T) | Err(error: E)

  /** A parsed JSON document, as returned by a JSON decoder. */
  datatype Json =
    | JNull
    | JBool(b: bool)
    | JNum(n: real)
    | JStr(s: string)
    | JArr(items: seq<Json>)
    | JObj(fields: map<string, Json>)

  /** Python truthiness of a decoded JSON value (what `x or default` tests). */
  predicate Truthy(j: Json) {
    match j
    case JNull => false
    case JBool(b) => b
    case JNum(n) => n != 0.0
    case JStr(s) => s != ""
    case JArr(items) => items != []
    case JObj(fields) => fields != map[]
  }

  /** Python truthiness of an optional string (`if s:` on `str | None`). */
  predicate Present(s: Option<string>) {
    s.Some? && s.value != ""
  }

  function Min(a: int, b: int): int {
    if a <= b then a else b
  }

  predicate IsAsciiDigit(c: char) {
    '0' <= c <= '9'
  }

  /** The value of a non-empty string of ASCII decimal digits. */
  function DecimalValue(s: string): (n: nat)
    requires forall i :: 0 <= i < |s| ==> IsAsciiDigit(s[i])
    decreases |s|
  {
    if s == [] then 0
    else
      assert IsAsciiDigit(s[|s| - 1]);
      DecimalValue(s[..|s| - 1]) * 10 + (s[|s| - 1] as int - '0' as int)
  }

  /** Python's `int(x)` on a real number truncates toward zero. */
  function TruncateToward0(r: real): (n: int)
    ensures 0.0 <= r ==> 0 <= n && n as real <= r < n as real + 1.0
    ensures r < 0.0 ==> n <= 0 && n as real - 1.0 < r <= n as real
  {
    if 0.0 <= r then r.Floor else -((-r).Floor)
  }

  /** One or more ASCII decimal digits. */
  predicate IsDigits(s: string) {
    s != [] && forall i :: 0 <= i < |s| ==> IsAsciiDigit(s[i])
  }

  /** The strings `int()` reads here: an optional `+` or `-`, then digits. */
  predicate IsIntText(s: string) {
    IsDigits(s) || (s != [] && (s[0] == '+' || s[0] == '-') && IsDigits(s[1..]))
  }

  /** `int(s)` for a string of an optional sign and ASCII digits. */
  function ParseInt(s: string): (r: Option<int>)
    ensures r.Some? <==> IsIntText(s)
    ensures r.Some? && s != [] && IsAsciiDigit(s[0]) ==> r.value >= 0
  {
    if s != [] && (s[0] == '-' || s[0] == '+') then
      var digits := s[1..];
      if digits != [] && forall i :: 0 <= i < |digits| ==> IsAsciiDigit(digits[i]) then
        Some(if s[0] == '-' then -(DecimalValue(digits) as int) else DecimalValue(digits))
      else None
    else if s != [] && forall i :: 0 <= i < |s| ==> IsAsciiDigit(s[i]) then
      Some(DecimalValue(s))
    else None
  }

  /** A leading zero does not change the value of a digit string. */
  lemma {:induction false} DecimalValueLeadingZero(t: string)
    requires forall i :: 0 <= i < |t| ==> IsAsciiDigit(t[i])
    ensures DecimalValue("0" + t) == DecimalValue(t)
    decreases |t|
  {
    var z := "0" + t;
    if t == [] {
      assert z[..0] == [];
    } else {
      var init := t[..|t| - 1];
      assert z[..|z| - 1] == "0" + init && z[|z| - 1] == t[|t| - 1];
      DecimalValueLeadingZero(init);
    }
  }

  /** `int("0" + t) == int(t)`: leading zeros are read away. */
  lemma ParseIntLeadingZero(t: string)
    requires IsDigits(t)
    ensures ParseInt("0" + t) == ParseInt(t)
  {
    DecimalValueLeadingZero(t);
    assert ("0" + t)[0] == '0';
    assert forall i :: 0 <= i < |"0" + t| ==> IsAsciiDigit(("0" + t)[i]) by {
      forall i | 0 <= i < |"0" + t| ensures IsAsciiDigit(("0" + t)[i]) {
        if i > 0 { assert ("0" + t)[i] == t[i - 1]; }
      }
    }
  }

  /** `int("+" + t) == int(t)`, and `int("-" + t)` is its negation (so `"-0"` reads as 0). */
  lemma ParseIntSign(t: string)
    requires IsDigits(t)
    ensures ParseInt("+" + t) == ParseInt(t)
    ensures ParseInt("-" + t) == Some(-ParseInt(t).value)
  {
    assert ("+" + t)[0] == '+' && ("+" + t)[1..] == t;
    assert ("-" + t)[0] == '-' && ("-" + t)[1..] == t;
  }

  /** The decimal digits of a natural number, most significant first (`str(n)`). */
  function NatText(n: nat): (s: string)
    ensures s != [] && forall i :: 0 <= i < |s| ==> IsAsciiDigit(s[i])
    decreases n
  {
    var d := ['0' + ((n % 10) as char)];
    if n < 10 then d else NatText(n / 10) + d
  }

  /** `str(n)` for an integer: a minus sign before the digits of a negative one. */
  function IntText(n: int): string {
    if n < 0 then "-" + NatText(-n) else NatText(n)
  }

  lemma {:induction false} NatTextValue(n: nat)
    ensures DecimalValue(NatText(n)) == n
    decreases n
  {
    var s := NatText(n);
    if n >= 10 {
      NatTextValue(n / 10);
      assert s[..|s| - 1] == NatText(n / 10);
    }
  }

  /** Rendering an integer and reading it back gives the same integer. */
  lemma IntTextRoundTrip(n: int)
    ensures ParseInt(IntText(n)) == Some(n)
  {
    var s := IntText(n);
    if n < 0 {
      var t := NatText(-n);
      NatTextValue(-n);
      assert s == "-" + t && s[1..] == t;
      assert s[0] == '-';
    } else {
      NatTextValue(n);
      assert IsAsciiDigit(s[0]);
      assert s[0] != '-' && s[0] != '+';
    }
  }
}
