/**
 * Amount normalisation (generate_wallet_scores.py line 19): the `amount`
 * field of `actionData` is converted with `float()` and divided by 10^18;
 * a record whose `actionData` is not an object, or has no `amount`, counts 0.
 */
module Amounts {
  import opened Wrappers
  import opened Transactions

  /** Base units per whole token: the divisor `1e18`. */
  const BaseUnitsPerToken: real := 1000000000000000000.0

  predicate IsDigit(c: char)
  {
    '0' <= c <= '9'
  }

  predicate AllDigits(s: string)
  {
    forall i :: 0 <= i < |s| ==> IsDigit(s[i])
  }

  function DigitValue(c: char): nat
    requires IsDigit(c)
  {
    c as int - '0' as int
  }

  function DigitChar(d: nat): (c: char)
    requires d < 10
    ensures IsDigit(c) && DigitValue(c) == d
  {
    ('0' as int + d) as char
  }

  /** The value of a digit string, most significant digit first; "" is 0. */
  function DigitsValue(s: string): nat
    requires AllDigits(s)
  {
    if |s| == 0 then 0
    else 10 * DigitsValue(s[..|s| - 1]) + DigitValue(s[|s| - 1])
  }

  function Pow10(n: nat): (p: nat)
    ensures p >= 1
  {
    if n == 0 then 1 else 10 * Pow10(n - 1)
  }

  /** The position of the first '.' in `s`, or |s| when there is none. */
  function PointIndex(s: string): (k: nat)
    ensures k <= |s|
    ensures forall i :: 0 <= i < k ==> s[i] != '.'
    ensures k < |s| ==> s[k] == '.'
  {
    if |s| == 0 then 0
    else if s[0] == '.' then 0
    else 1 + PointIndex(s[1..])
  }

  /** Digits with at most one decimal point and at least one digit: "12", "1.5", "1.", ".5". */
  predicate UnsignedDecimal(s: string)
  {
    var k := PointIndex(s);
    && AllDigits(s[..k])
    && (k < |s| ==> AllDigits(s[k + 1..]))
    && (if k < |s| then |s| >= 2 else |s| >= 1)
  }

  function UnsignedValue(s: string): (v: real)
    requires UnsignedDecimal(s)
    ensures v >= 0.0
  {
    var k := PointIndex(s);
    var whole := DigitsValue(s[..k]) as real;
    if k == |s| then whole
    else whole + DigitsValue(s[k + 1..]) as real / Pow10(|s| - k - 1) as real
  }

  predicate HasSign(s: string)
  {
    |s| > 0 && (s[0] == '+' || s[0] == '-')
  }

  /** The text `float()` parses, restricted to an optional sign, digits and one point. */
  predicate DecimalText(s: string)
  {
    UnsignedDecimal(if HasSign(s) then s[1..] else s)
  }

  /** `float(s)` for a string: None where Python raises ValueError. */
  function ParseDecimal(s: string): (r: Option<real>)
    ensures r.Some? <==> DecimalText(s)
    ensures r.Some? && !(|s| > 0 && s[0] == '-') ==> r.value >= 0.0
  {
    var body := if HasSign(s) then s[1..] else s;
    if !UnsignedDecimal(body) then None
    else if s[0] == '-' then Some(-UnsignedValue(body))
    else Some(UnsignedValue(body))
  }

  /** `float(v)` for a JSON value: None where Python raises TypeError or ValueError. */
  function ToFloat(v: Json): (r: Option<real>)
    ensures v.JNumber? ==> r == Some(v.x)
    ensures v.JNull? || v.JArray? || v.JObject? ==> r.None?
    ensures v.JBool? ==> r == Some(if v.b then 1.0 else 0.0)
    ensures v.JString? ==> r == ParseDecimal(v.s)
    ensures v.JString? ==> (r.Some? <==> DecimalText(v.s))
  {
    match v
    case JNumber(x) => Some(x)
    case JBool(b) => Some(if b then 1.0 else 0.0)
    case JString(s) => ParseDecimal(s)
    case _ => None
  }

  /** The `amount` column for one record's `actionData`; None where `float()` raises. */
  function AmountOf(data: Json): (r: Option<real>)
    ensures !data.JObject? ==> r == Some(0.0)
    ensures data.JObject? && "amount" !in data.fields ==> r == Some(0.0)
    ensures data.JObject? && "amount" in data.fields ==>
              (r.Some? <==> ToFloat(data.fields["amount"]).Some?) &&
              (r.Some? ==> r.value * BaseUnitsPerToken == ToFloat(data.fields["amount"]).value)
  {
    match data
    case JObject(fields) =>
      if "amount" in fields then
        match ToFloat(fields["amount"])
        case Some(x) => Some(x / BaseUnitsPerToken)
        case None => None
      else Some(0.0)
    case _ => Some(0.0)
  }

  /** The decimal text of a natural number, as base-unit amounts are written. */
  function NatToDigits(n: nat): (s: string)
    ensures |s| >= 1 && AllDigits(s)
  {
    if n < 10 then [DigitChar(n)]
    else NatToDigits(n / 10) + [DigitChar(n % 10)]
  }

  lemma {:induction false} DigitsRoundTrip(n: nat)
    ensures DigitsValue(NatToDigits(n)) == n
  {
    if n >= 10 {
      var s := NatToDigits(n);
      assert s[..|s| - 1] == NatToDigits(n / 10);
      DigitsRoundTrip(n / 10);
    }
  }

  /** A digit string has no decimal point, so it parses as the integer it spells. */
  lemma ParseNatText(n: nat)
    ensures ParseDecimal(NatToDigits(n)) == Some(n as real)
  {
    var s := NatToDigits(n);
    assert !HasSign(s) by { assert IsDigit(s[0]); }
    assert PointIndex(s) == |s|;
    assert s[..|s|] == s;
    DigitsRoundTrip(n);
  }

  /** A negative amount text "-n" parses to -n. */
  lemma ParseNegativeText(n: nat)
    ensures ParseDecimal("-" + NatToDigits(n)) == Some(-(n as real))
  {
    var d := NatToDigits(n);
    var s := "-" + d;
    assert HasSign(s) && s[1..] == d;
    ParseNatText(n);
  }

  /** The k-digit text of b, padded with leading zeros: the fraction digits of a decimal. */
  function PadDigits(b: nat, k: nat): (s: string)
    requires b < Pow10(k)
    ensures |s| == k && AllDigits(s)
    ensures DigitsValue(s) == b
  {
    if k == 0 then ""
    else
      var s := PadDigits(b / 10, k - 1) + [DigitChar(b % 10)];
      assert s[..k - 1] == PadDigits(b / 10, k - 1);
      s
  }

  /** Digits followed by a point: the first point is the one after the digits. */
  lemma PointAfterDigits(d: string, p: string)
    requires AllDigits(d)
    ensures PointIndex(d + "." + p) == |d|
  {
    var s := d + "." + p;
    assert s[|d|] == '.';
    var k := PointIndex(s);
    assert forall i :: 0 <= i < |d| ==> s[i] == d[i];
  }

  /** Digits, a point and digits: the point splits the text back into its two digit strings. */
  lemma PointTextSplit(d: string, f: string)
    requires AllDigits(d)
    ensures var s := d + "." + f;
            && PointIndex(s) == |d| < |s|
            && s[..PointIndex(s)] == d
            && s[PointIndex(s) + 1..] == f
  {
    PointAfterDigits(d, f);
    var s := d + "." + f;
    assert s[..|d|] == d;
    assert s[|d| + 1..] == f;
  }

  /** Digits, a point and digits: an unsigned decimal worth whole + fraction / 10^|f|. */
  lemma PointTextValue(d: string, f: string)
    requires AllDigits(d) && AllDigits(f) && |d| >= 1
    ensures UnsignedDecimal(d + "." + f)
    ensures UnsignedValue(d + "." + f) == DigitsValue(d) as real + DigitsValue(f) as real / Pow10(|f|) as real
  {
    PointTextSplit(d, f);
  }

  /** An unsigned decimal parses to its value, negated after a '-' and unchanged after a '+'. */
  lemma ParseUnsignedText(t: string, v: real)
    requires UnsignedDecimal(t) && !HasSign(t) && UnsignedValue(t) == v
    ensures ParseDecimal(t) == Some(v)
    ensures ParseDecimal("-" + t) == Some(-v)
    ensures ParseDecimal("+" + t) == Some(v)
  {
    assert ("-" + t)[1..] == t;
    assert ("+" + t)[1..] == t;
  }

  /** The decimal text "a.f" of a + b / 10^k, with f the k-digit zero-padded text of b. */
  function PointText(a: nat, b: nat, k: nat): (t: string)
    requires b < Pow10(k)
    ensures UnsignedDecimal(t) && !HasSign(t)
    ensures UnsignedValue(t) == a as real + b as real / Pow10(k) as real
  {
    var d, f := NatToDigits(a), PadDigits(b, k);
    assert IsDigit(d[0]);
    assert (d + "." + f)[0] == d[0];
    PointTextValue(d, f);
    DigitsRoundTrip(a);
    d + "." + f
  }

  /** Digit strings d and f joined by a point parse to d + f / 10^|f|, as in "12.05". */
  lemma ParsePointText(d: string, f: string)
    requires AllDigits(d) && AllDigits(f) && |d| >= 1
    ensures ParseDecimal(d + "." + f)
            == Some(DigitsValue(d) as real + DigitsValue(f) as real / Pow10(|f|) as real)
  {
    var s := d + "." + f;
    assert !HasSign(s) by { assert s[0] == d[0]; assert IsDigit(d[0]); }
    PointTextValue(d, f);
    ParseUnsignedText(s, DigitsValue(d) as real + DigitsValue(f) as real / Pow10(|f|) as real);
  }

  /**
   * An `actionData` object whose `amount` is the decimal text of n base units
   * yields n / 10^18 tokens, whatever other fields it has.
   */
  lemma AmountOfBaseUnits(fields: map<string, Json>, n: nat)
    requires "amount" in fields && fields["amount"] == JString(NatToDigits(n))
    ensures AmountOf(JObject(fields)) == Some(n as real / BaseUnitsPerToken)
  {
    ParseNatText(n);
  }

  /** The amount of 10^18 base units, written as text, is exactly one token. */
  lemma OneTokenScenario()
    ensures AmountOf(JObject(map["amount" := JString(NatToDigits(1000000000000000000))])) == Some(1.0)
  {
    AmountOfBaseUnits(map["amount" := JString(NatToDigits(1000000000000000000))], 1000000000000000000);
  }

  /**
   * The frame after line 19: every record with its amount. `apply` stops at
   * the first record whose conversion raises, and the run ends there.
   */
  function AmountColumn(recs: seq<Record>): (r: Result<seq<Row>, Error>)
    ensures r.Success? <==> forall i :: 0 <= i < |recs| ==> AmountOf(recs[i].actionData).Some?
    ensures r.Success? ==>
              && |r.value| == |recs|
              && forall i :: 0 <= i < |recs| ==>
                   && r.value[i].wallet == recs[i].wallet
                   && r.value[i].timestamp == recs[i].timestamp
                   && r.value[i].action == recs[i].action
                   && Some(r.value[i].amount) == AmountOf(recs[i].actionData)
    ensures r.Failure? ==>
              && r.error.BadAmount?
              && r.error.index < |recs|
              && AmountOf(recs[r.error.index].actionData).None?
              && forall i :: 0 <= i < r.error.index ==> AmountOf(recs[i].actionData).Some?
  {
    if |recs| == 0 then Success([])
    else
      var rec := recs[0];
      match AmountOf(rec.actionData)
      case None => Failure(BadAmount(0))
      case Some(x) =>
        match AmountColumn(recs[1..])
        case Failure(e) => Failure(BadAmount(e.index + 1))
        case Success(rest) => Success([Row(rec.wallet, rec.timestamp, rec.action, x)] + rest)
  }
}
