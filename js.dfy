/** JavaScript values as the card visual sees them: optional values, numbers
    that may be null, truthiness, property-pane values and the decimal
    rendering of an index that `"condition" + index` performs. */
module Js {

  datatype Option<+T> = None | Some(value: T)

  /** A JavaScript number that may be `null` (or `undefined`). NaN is not modelled. */
  datatype NumOrNull = Null | Number(value: real) {
    /** JavaScript truthiness: `null` and `0` are falsy, every other number is truthy. */
    predicate Truthy() {
      Number? && value != 0.0
    }
    /** `v > 0` in JavaScript: `null` converts to 0, so it is never positive. */
    predicate IsPositive() {
      Number? && value > 0.0
    }
    /** `v < 0` in JavaScript. */
    predicate IsNegative() {
      Number? && value < 0.0
    }
  }

  /** A colour string that may be `undefined`/`null`; it is usable (truthy)
      only when present and non-empty. */
  predicate IsSet(c: Option<string>) {
    c.Some? && c.value != ""
  }

  /** A value stored in a property-pane instance or a data-view object. */
  datatype PropValue = PBool(b: bool) | PNum(n: real) | PStr(s: string) | PNull

  function NumValue(v: NumOrNull): PropValue {
    match v
    case Null => PNull
    case Number(x) => PNum(x)
  }

  function StrValue(s: Option<string>): PropValue {
    match s
    case None => PNull
    case Some(t) => PStr(t)
  }

  predicate IsDigit(c: char) {
    '0' <= c <= '9'
  }

  function DigitChar(d: nat): (c: char)
    requires d < 10
    ensures IsDigit(c) && c as int - '0' as int == d
  {
    ('0' as int + d) as char
  }

  /** The decimal text JavaScript produces when a non-negative integer is
      concatenated to a string. */
  function NatToString(n: nat): (s: string)
    ensures |s| >= 1
    ensures forall i :: 0 <= i < |s| ==> IsDigit(s[i])
    ensures n >= 10 ==> s[0] != '0'
    decreases n
  {
    if n < 10 then [DigitChar(n)] else NatToString(n / 10) + [DigitChar(n % 10)]
  }

  /** Reads a string of decimal digits back as a number. */
  function ParseDecimal(s: string): nat
    requires forall i :: 0 <= i < |s| ==> IsDigit(s[i])
    decreases |s|
  {
    if s == [] then 0
    else 10 * ParseDecimal(s[..|s| - 1]) + DigitValue(s[|s| - 1])
  }

  function DigitValue(c: char): (d: nat)
    requires IsDigit(c)
    ensures d < 10
  {
    c as int - '0' as int
  }

  lemma {:induction false} ParseNatToString(n: nat)
    ensures ParseDecimal(NatToString(n)) == n
    decreases n
  {
    var s := NatToString(n);
    if n >= 10 {
      ParseNatToString(n / 10);
      assert s[..|s| - 1] == NatToString(n / 10);
    }
  }

  /** Distinct indices give distinct property keys. */
  lemma NatToStringInjective(k: nat, j: nat)
    requires k != j
    ensures NatToString(k) != NatToString(j)
  {
    ParseNatToString(k);
    ParseNatToString(j);
  }

  lemma KeyInjective(prefix: string, k: nat, j: nat)
    requires k != j
    ensures prefix + NatToString(k) != prefix + NatToString(j)
  {
    NatToStringInjective(k, j);
    assert (prefix + NatToString(k))[|prefix|..] == NatToString(k);
    assert (prefix + NatToString(j))[|prefix|..] == NatToString(j);
  }
}
