/**
 The scalar values found in the exchange's JSON responses, and the handful of
 Python operations the bot applies to them: truthiness, `dict.get`, `a or b`,
 `float(v)` and the millisecond-to-second division of `updateTime`.
 */
module Values {
  import opened Common

  /** A JSON scalar as it appears inside a response dict. Integers and floats
      are both numbers here; the model never depends on the difference. */
  datatype Value = Null | Bool(b: bool) | Num(n: real) | Text(s: string)

  /** A decoded response body: field name to scalar. */
  type Response = map<string, Value>

  /** Python truthiness: `None`, `False`, `0`, `0.0` and `""` are falsy. */
  predicate Truthy(v: Value) {
    match v
    case Null => false
    case Bool(b) => b
    case Num(n) => n != 0.0
    case Text(s) => |s| > 0
  }

  /** `m.get(k, default)`. */
  function GetOr(m: Response, k: string, default: Value): (v: Value)
    ensures k in m ==> v == m[k]
    ensures k !in m ==> v == default
  {
    if k in m then m[k] else default
  }

  /** `m.get(k)`: a missing key reads as `None`. */
  function Get(m: Response, k: string): (v: Value)
    ensures k !in m ==> v == Null
    ensures k in m ==> v == m[k]
  {
    GetOr(m, k, Null)
  }

  /** Python's `a or b`: the first operand when it is truthy, else the second. */
  function Or(a: Value, b: Value): (v: Value)
    ensures Truthy(v) <==> Truthy(a) || Truthy(b)
    ensures Truthy(a) ==> v == a
    ensures !Truthy(a) ==> v == b
  {
    if Truthy(a) then a else b
  }

  predicate IsDigit(c: char) {
    '0' <= c <= '9'
  }

  predicate AllDigits(s: string) {
    forall i :: 0 <= i < |s| ==> IsDigit(s[i])
  }

  /** Index of the first character in `cs`, or `|s|` when there is none. */
  function FirstOf(s: string, cs: set<char>): (k: nat)
    ensures k <= |s|
    ensures k < |s| ==> s[k] in cs
    ensures forall i :: 0 <= i < k ==> s[i] !in cs
  {
    if |s| == 0 then 0
    else if s[0] in cs then 0
    else 1 + FirstOf(s[1..], cs)
  }

  /** Drops one leading `+` or `-`. */
  function Unsigned(s: string): string {
    if |s| > 0 && (s[0] == '+' || s[0] == '-') then s[1..] else s
  }

  /** Digits with at most one decimal point and at least one digit. */
  predicate Mantissa(s: string) {
    var k := FirstOf(s, {'.'});
    if k == |s| then |s| > 0 && AllDigits(s)
    else |s| > 1 && AllDigits(s[..k]) && AllDigits(s[k + 1..])
  }

  /** The decimal literals `float(text)` accepts: an optional sign, a
      mantissa, and an optional exponent `e`/`E` with optional sign. */
  predicate FloatText(s: string) {
    var u := Unsigned(s);
    var e := FirstOf(u, {'e', 'E'});
    if e == |u| then Mantissa(u)
    else
      var x := Unsigned(u[e + 1..]);
      Mantissa(u[..e]) && |x| > 0 && AllDigits(x)
  }

  /** Whether `float(v)` returns instead of raising. */
  predicate Convertible(v: Value) {
    match v
    case Null => false
    case Bool(_) => true
    case Num(_) => true
    case Text(s) => FloatText(s)
  }

  /** `v / 1000`, or `None` where Python raises `TypeError` (text and `None`). */
  function Millis(v: Value): (r: Option<real>)
    ensures r.Some? <==> v.Num? || v.Bool?
    ensures v.Num? ==> r == Some(v.n / 1000.0)
  {
    match v
    case Num(n) => Some(n / 1000.0)
    case Bool(b) => Some(if b then 1.0 / 1000.0 else 0.0)
    case _ => None
  }

  /** A price string as the exchange sends it converts. */
  lemma PriceTextConverts()
    ensures FloatText("0.00")
  {
    var u := Unsigned("0.00");
    assert u == "0.00";
    assert FirstOf(u, {'e', 'E'}) == 4;
    assert FirstOf(u, {'.'}) == 1;
    assert u[..1] == "0" && u[2..] == "00";
  }

  /** A word does not convert. */
  lemma WordTextFails()
    ensures !FloatText("abc")
  {
    var u := Unsigned("abc");
    assert u == "abc";
    assert FirstOf(u, {'e', 'E'}) == 3;
    assert FirstOf(u, {'.'}) == 3;
    assert !IsDigit(u[0]);
  }
}
