/** The JavaScript values the client computes with: the values plan feature maps and usage maps
    hold, the number coercion (`ToNumber`) that arithmetic and comparisons apply to them, and the
    truthiness of optional strings that `||` and `if` test. */
module JsValues {
  import opened Wrappers
  import opened Text

  /** A feature or usage value: a boolean flag, an integer limit (`-1` for unlimited) or a text
      such as `'1GB'`. */
  datatype FeatureValue = FBool(b: bool) | FNum(n: int) | FText(s: string)

  /** A JavaScript number as far as the client uses it: an integer, `Infinity` or `NaN`. */
  datatype Num = Fin(v: int) | Infinity | NaN

  /** JavaScript truthiness of a value (`0`, `false` and `''` are falsy). */
  predicate Truthy(v: FeatureValue) {
    match v
    case FBool(b) => b
    case FNum(n) => n != 0
    case FText(s) => s != ""
  }

  /** `m[k]`: the value stored under `k`, or `undefined`. */
  function Lookup<V>(m: map<string, V>, k: string): (r: Option<V>)
    ensures r.Some? <==> k in m
    ensures r.Some? ==> r.value == m[k]
  {
    if k in m then Some(m[k]) else None
  }

  /** An optional string that JavaScript treats as true: present and not empty. */
  predicate TruthyText(o: Option<string>) {
    o.Some? && o.value != ""
  }

  /** `a || b` on optional strings. */
  function OrText(a: Option<string>, b: Option<string>): (r: Option<string>)
    ensures TruthyText(a) ==> r == a
    ensures !TruthyText(a) ==> r == b
  {
    if TruthyText(a) then a else b
  }

  /** `a || fallback` for an optional string and a fallback that is always present. */
  function TextOr(a: Option<string>, fallback: string): (r: string)
    ensures TruthyText(a) ==> r == a.value
    ensures !TruthyText(a) ==> r == fallback
  {
    if TruthyText(a) then a.value else fallback
  }

  /** `Number(s)` for the forms the client's data can hold: white space around an optionally
      signed decimal integer, or nothing at all (which is 0). */
  function StringToNumber(s: string): (r: Num)
    ensures r != Infinity
  {
    var t := Trim(s);
    if t == "" then Fin(0)
    else if AllDigits(t) then Fin(DigitsValue(t))
    else if (t[0] == '-' || t[0] == '+') && |t| > 1 && AllDigits(t[1..]) then
      var m: int := DigitsValue(t[1..]);
      Fin(if t[0] == '-' then -m else m)
    else NaN
  }

  predicate AllDigits(s: string) {
    forall i :: 0 <= i < |s| ==> IsDigit(s[i])
  }

  /** `Number(v)` for a value that may be missing (`undefined` is `NaN`). */
  function ToNumber(v: Option<FeatureValue>): (r: Num)
    ensures r != Infinity
  {
    match v
    case None => NaN
    case Some(FBool(b)) => Fin(if b then 1 else 0)
    case Some(FNum(n)) => Fin(n)
    case Some(FText(s)) => StringToNumber(s)
  }

  /** `a - b` on numbers: `NaN` is contagious; the client never subtracts from `Infinity`. */
  function Sub(a: Num, b: Num): (r: Num)
    requires a != Infinity && b != Infinity
    ensures r.Fin? <==> a.Fin? && b.Fin?
    ensures r.Fin? ==> r.v == a.v - b.v
  {
    if a.Fin? && b.Fin? then Fin(a.v - b.v) else NaN
  }

  /** `Math.max(0, a)`: `NaN` stays `NaN`. */
  function MaxZero(a: Num): (r: Num)
    ensures a.NaN? <==> r.NaN?
    ensures a.Infinity? <==> r.Infinity?
    ensures r.Fin? ==> r.v >= 0 && r.v >= a.v && (r.v == 0 || r.v == a.v)
  {
    match a
    case Fin(x) => Fin(if x < 0 then 0 else x)
    case _ => a
  }

  /** `a <= k` for an integer `k`: false whenever `a` is `NaN`. */
  predicate AtMost(a: Num, k: int) {
    a.Fin? && a.v <= k
  }

  /** `a < k` for an integer `k`: false whenever `a` is `NaN` or `Infinity`. */
  predicate Below(a: Num, k: int) {
    a.Fin? && a.v < k
  }

  /** A decimal numeral reads back as its number. */
  lemma StringToNumberOfDecimal(n: nat)
    ensures StringToNumber(NatToDecimal(n)) == Fin(n)
  {
    var d := NatToDecimal(n);
    assert !IsTrimSpace(d[0]);
    assert TrimStart(d) == d;
    assert !IsTrimSpace(d[|d| - 1]);
    assert TrimEnd(d) == d;
    DigitsValueOfDecimal(n);
  }

  /** Text that is not a number, such as a storage size with its unit, coerces to `NaN`. */
  lemma StorageSizeIsNaN()
    ensures StringToNumber("2.5GB") == NaN
    ensures StringToNumber("1GB") == NaN
  {
    assert !IsTrimSpace('2') && !IsTrimSpace('B') && !IsTrimSpace('1');
    assert TrimStart("2.5GB") == "2.5GB" && TrimEnd("2.5GB") == "2.5GB";
    assert TrimStart("1GB") == "1GB" && TrimEnd("1GB") == "1GB";
    assert !IsDigit("2.5GB"[1]);
    assert !IsDigit("1GB"[1]);
  }
}
