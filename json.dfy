/** Decoded JSON values, as `response.json()` hands them to the bot, and the
    parts of Python's behaviour on such values that the bot relies on:
    `type(v)` names, `str(v)` inside an f-string, and `in` on two strings. */
module Json {

  /** A JSON value. Numbers are integers; objects are maps from keys to values. */
  datatype Json =
    | JNull
    | JBool(b: bool)
    | JNum(n: int)
    | JStr(s: string)
    | JArr(items: seq<Json>)
    | JObj(fields: map<string, Json>)

  /** The name of the Python class that `json` decodes a value into. */
  function PyTypeName(j: Json): string {
    match j
    case JNull => "NoneType"
    case JBool(_) => "bool"
    case JNum(_) => "int"
    case JStr(_) => "str"
    case JArr(_) => "list"
    case JObj(_) => "dict"
  }

  function DigitChar(d: nat): (c: char)
    requires d < 10
    ensures '0' <= c <= '9' && c as int - '0' as int == d
  {
    ('0' as int + d) as char
  }

  /** The number a string of decimal digits denotes, most significant first. */
  function DigitsValue(s: string): int
    requires forall i :: 0 <= i < |s| ==> '0' <= s[i] <= '9'
  {
    if s == [] then 0 else DigitsValue(s[..|s| - 1]) * 10 + (s[|s| - 1] as int - '0' as int)
  }

  /** The integer a decimal text with an optional leading minus sign denotes. */
  function DecimalValue(s: string): int
    requires s != [] ==> s[0] == '-' || '0' <= s[0] <= '9'
    requires forall i :: 0 < i < |s| ==> '0' <= s[i] <= '9'
  {
    if s != [] && s[0] == '-' then -DigitsValue(s[1..]) else DigitsValue(s)
  }

  /** The decimal digits of a natural number, most significant first, without
      leading zeros; they denote the number. */
  function Digits(n: nat): (r: string)
    ensures 1 <= |r|
    ensures forall i :: 0 <= i < |r| ==> '0' <= r[i] <= '9'
    ensures 1 < |r| ==> r[0] != '0'
    ensures DigitsValue(r) == n
    decreases n
  {
    if n < 10 then [DigitChar(n)]
    else
      var r := Digits(n / 10) + [DigitChar(n % 10)];
      assert r[..|r| - 1] == Digits(n / 10);
      r
  }

  /** `str(n)` of a Python int: it reads back as `n`. */
  function Decimal(n: int): (r: string)
    ensures r != [] && (r[0] == '-' || '0' <= r[0] <= '9')
    ensures forall i :: 0 < i < |r| ==> '0' <= r[i] <= '9'
    ensures DecimalValue(r) == n
    ensures r[0] == '-' <==> n < 0
    ensures r[0] == '-' ==> 2 <= |r| && r[1] != '0'
    ensures r[0] != '-' && 1 < |r| ==> r[0] != '0'
  {
    if n < 0 then
      var r := "-" + Digits(-n);
      assert r[1..] == Digits(-n);
      r
    else Digits(n)
  }

  /** The text `str(v)` gives for a decoded value, as an f-string inserts it: a
      string is inserted as it is, an integer as decimal text that reads back as
      the number. Arrays and objects get a stand-in text (Python's repr is not modelled). */
  function PyStr(j: Json): (r: string)
    ensures j.JStr? ==> r == j.s
    ensures j.JNum? ==> r != [] && (forall i :: 0 < i < |r| ==> '0' <= r[i] <= '9') &&
                        (r[0] == '-' || '0' <= r[0] <= '9') && DecimalValue(r) == j.n
    ensures j.JNum? ==> (r[0] == '-' ==> 2 <= |r| && r[1] != '0') && (r[0] != '-' && 1 < |r| ==> r[0] != '0')
  {
    match j
    case JNull => "None"
    case JBool(b) => if b then "True" else "False"
    case JNum(n) => Decimal(n)
    case JStr(s) => s
    case JArr(_) => "[...]"
    case JObj(_) => "{...}"
  }

  /** Python's `needle in hay` on two strings: a substring test. */
  predicate IsSubstring(needle: string, hay: string) {
    needle <= hay || (hay != [] && IsSubstring(needle, hay[1..]))
  }
}
