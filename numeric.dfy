/**
 * Decimal literals as the two runtimes read them: C#'s `decimal.Parse`, which
 * must consume the whole trimmed text, and JavaScript's `parseFloat`, which
 * reads the longest literal after leading white space and ignores the rest.
 * Both accept an optional sign, digits and an optional fraction, with at least
 * one digit. Positions are indices into the text being read.
 */
module Numeric {
  import opened Wrappers
  import opened Text

  predicate IsDigit(c: char) {
    '0' <= c <= '9'
  }

  /** Every character of `s[i..j]` is a digit. */
  predicate DigitsBetween(s: string, i: nat, j: nat)
    requires i <= j <= |s|
  {
    forall k :: i <= k < j ==> IsDigit(s[k])
  }

  function DigitValue(c: char): nat
    requires IsDigit(c)
  {
    c as int - '0' as int
  }

  /** The natural number the digits `s[i..j]` denote (0 when there are none). */
  function DigitsValue(s: string, i: nat, j: nat): nat
    requires i <= j <= |s| && DigitsBetween(s, i, j)
    decreases j - i
  {
    if j == i then 0 else 10 * DigitsValue(s, i, j - 1) + DigitValue(s[j - 1])
  }

  function Pow10(n: nat): (r: nat)
    ensures r >= 1
  {
    if n == 0 then 1 else 10 * Pow10(n - 1)
  }

  /** The value of the literal `whole.frac` where `frac` is written with `places` digits. */
  function Fixed(whole: nat, frac: nat, places: nat): (r: real)
    ensures r >= whole as real
  {
    whole as real + frac as real / Pow10(places) as real
  }

  /** The end of the run of digits that starts at `i`. */
  function RunEnd(s: string, i: nat): (e: nat)
    requires i <= |s|
    ensures i <= e <= |s| && DigitsBetween(s, i, e)
    ensures e == |s| || !IsDigit(s[e])
    decreases |s| - i
  {
    if i < |s| && IsDigit(s[i]) then RunEnd(s, i + 1) else i
  }

  /** A literal read from a text: its value and the index just past it. */
  datatype Scanned = Scanned(value: real, end: nat)

  /** The longest literal digits [ "." digits ] with at least one digit that starts at `i`. */
  function ScanUnsigned(s: string, i: nat): (r: Option<Scanned>)
    requires i <= |s|
    ensures r.Some? ==> i < r.value.end <= |s| && r.value.value >= 0.0
  {
    var e := RunEnd(s, i);
    if e < |s| && s[e] == '.' then
      var f := RunEnd(s, e + 1);
      if e == i && f == e + 1 then None
      else Some(Scanned(Fixed(DigitsValue(s, i, e), DigitsValue(s, e + 1, f), f - e - 1), f))
    else if e == i then None
    else Some(Scanned(DigitsValue(s, i, e) as real, e))
  }

  /** An optional `-` or `+` at `i` followed by an unsigned literal. */
  function ScanSigned(s: string, i: nat): (r: Option<Scanned>)
    requires i <= |s|
    ensures r.Some? ==> i < r.value.end <= |s|
  {
    if i < |s| && (s[i] == '-' || s[i] == '+') then
      match ScanUnsigned(s, i + 1)
      case None => None
      case Some(sc) => Some(Scanned(if s[i] == '-' then -sc.value else sc.value, sc.end))
    else ScanUnsigned(s, i)
  }

  /** C#'s `decimal.Parse(s)`: the trimmed text must be exactly one literal; `None` is the FormatException. */
  function ParseDecimal(s: string): Option<real> {
    match ScanSigned(s, TrimFrom(s))
    case Some(sc) => if sc.end == TrimTo(s) then Some(sc.value) else None
    case None => None
  }

  /** JavaScript's `parseFloat` on a string: the literal after leading white space, if any; `None` is NaN. */
  function ParseFloat(s: string): Option<real> {
    match ScanSigned(s, TrimFrom(s))
    case Some(sc) => Some(sc.value)
    case None => None
  }

  /** Whatever `decimal.Parse` accepts, `parseFloat` reads with the same value. */
  lemma {:induction false} ParseDecimalThenParseFloat(s: string)
    ensures ParseDecimal(s).Some? ==> ParseFloat(s) == ParseDecimal(s)
  {
  }

  /** `decimal.Parse` fails on a text with no digit at all, the empty text among them. */
  lemma {:induction false} NoDigitNoDecimal(s: string)
    requires forall k :: 0 <= k < |s| ==> !IsDigit(s[k])
    ensures ParseDecimal(s) == None && ParseFloat(s) == None
  {
    var a := TrimFrom(s);
    var b := if a < |s| && (s[a] == '-' || s[a] == '+') then a + 1 else a;
    assert RunEnd(s, b) == b;
    if b < |s| && s[b] == '.' {
      assert RunEnd(s, b + 1) == b + 1;
    }
  }

  /** Digits found at an offset inside a longer text have the same value. */
  lemma {:induction false} DigitsValueShift(p: string, x: string, q: string, j: nat)
    requires j <= |x| && DigitsBetween(x, 0, j)
    ensures DigitsBetween(p + x + q, |p|, |p| + j)
    ensures DigitsValue(p + x + q, |p|, |p| + j) == DigitsValue(x, 0, j)
  {
    var s := p + x + q;
    assert forall k :: |p| <= k < |p| + j ==> s[k] == x[k - |p|];
    if j > 0 {
      DigitsValueShift(p, x, q, j - 1);
    }
  }

  /** The run of digits starting at the front of a digit string `x` inside `p + x + q` ends where `x` ends
      when `q` does not start with a digit. */
  lemma {:induction false} RunEndOver(p: string, x: string, q: string, i: nat)
    requires i <= |x| && DigitsBetween(x, 0, |x|)
    requires q == [] || !IsDigit(q[0])
    ensures RunEnd(p + x + q, |p| + i) == |p| + |x|
    decreases |x| - i
  {
    var s := p + x + q;
    if i < |x| {
      assert s[|p| + i] == x[i];
      RunEndOver(p, x, q, i + 1);
    } else if q != [] {
      assert s[|p| + |x|] == q[0];
    }
  }

  /** A digit string followed by "." and a (possibly empty) digit string reads back as its value. */
  lemma {:induction false} ParseDecimalLiteral(a: string, b: string)
    requires |a| > 0 && DigitsBetween(a, 0, |a|) && DigitsBetween(b, 0, |b|)
    ensures ParseDecimal(a + "." + b)
            == Some(Fixed(DigitsValue(a, 0, |a|), DigitsValue(b, 0, |b|), |b|))
  {
    var s := a + "." + b;
    assert s == [] + a + ("." + b);
    assert s == (a + ".") + b + [];
    assert TrimFrom(s) == 0;
    assert TrimTo(s) == |s|;
    RunEndOver([], a, "." + b, 0);
    RunEndOver(a + ".", b, [], 0);
    DigitsValueShift([], a, "." + b, |a|);
    DigitsValueShift(a + ".", b, [], |b|);
  }

  /** A digit string reads back as its value. */
  lemma {:induction false} ParseDecimalInteger(a: string)
    requires |a| > 0 && DigitsBetween(a, 0, |a|)
    ensures ParseDecimal(a) == Some(DigitsValue(a, 0, |a|) as real)
  {
    assert a == [] + a + [];
    assert TrimFrom(a) == 0 && TrimTo(a) == |a|;
    RunEndOver([], a, [], 0);
  }

  /** A minus sign in front of a digit string negates its value. */
  lemma {:induction false} ParseDecimalNegative(a: string)
    requires |a| > 0 && DigitsBetween(a, 0, |a|)
    ensures ParseDecimal("-" + a) == Some(-(DigitsValue(a, 0, |a|) as real))
  {
    var n := "-" + a;
    assert n == "-" + a + [];
    assert TrimFrom(n) == 0 && TrimTo(n) == |n|;
    RunEndOver("-", a, [], 0);
    DigitsValueShift("-", a, [], |a|);
  }

  /** `decimal.Parse("1.5")` is 1.5. */
  lemma {:induction false} ParsesOnePointFive(s: string)
    requires s == "1.5"
    ensures ParseDecimal(s) == Some(1.5)
  {
    ParseDecimalLiteral("1", "5");
    assert s == "1" + "." + "5";
  }

  /** `decimal.Parse("2.5")` is 2.5. */
  lemma {:induction false} ParsesTwoPointFive(s: string)
    requires s == "2.5"
    ensures ParseDecimal(s) == Some(2.5)
  {
    ParseDecimalLiteral("2", "5");
    assert s == "2" + "." + "5";
  }

  /** `decimal.Parse("50000")` is 50000. */
  lemma {:induction false} ParsesFiftyThousand(s: string)
    requires s == "50000"
    ensures ParseDecimal(s) == Some(50000.0)
  {
    ParseDecimalInteger(s);
    assert DigitsValue(s, 0, 1) == 5;
    assert DigitsValue(s, 0, 2) == 50;
    assert DigitsValue(s, 0, 3) == 500;
    assert DigitsValue(s, 0, 4) == 5000;
  }

  /** `decimal.Parse("12000")` is 12000. */
  lemma {:induction false} ParsesTwelveThousand(s: string)
    requires s == "12000"
    ensures ParseDecimal(s) == Some(12000.0)
  {
    ParseDecimalInteger(s);
    assert DigitsValue(s, 0, 1) == 1;
    assert DigitsValue(s, 0, 2) == 12;
    assert DigitsValue(s, 0, 3) == 120;
    assert DigitsValue(s, 0, 4) == 1200;
  }

  /** `decimal.Parse("2500")` is 2500. */
  lemma {:induction false} ParsesTwentyFiveHundred(s: string)
    requires s == "2500"
    ensures ParseDecimal(s) == Some(2500.0)
  {
    ParseDecimalInteger(s);
    assert DigitsValue(s, 0, 1) == 2;
    assert DigitsValue(s, 0, 2) == 25;
    assert DigitsValue(s, 0, 3) == 250;
  }

  /** `decimal.Parse("invalid")` throws. */
  lemma {:induction false} RejectsWord(s: string)
    requires s == "invalid"
    ensures ParseDecimal(s) == None
  {
    NoDigitNoDecimal(s);
  }

  /** The change from `buy` to `now` in percent of `buy`; undefined when `buy` is 0. */
  function ChangePercent(now: real, buy: real): real
    requires buy != 0.0
  {
    (now - buy) / buy * 100.0
  }

  /** The value of `amount` units at `price`. */
  function Times(price: real, amount: real): real {
    price * amount
  }

  /** Rising by the change in percent takes the buy value to the current one. */
  lemma ChangeMeaning(p: real, b: real)
    requires b != 0.0
    ensures p == Times(b, 1.0 + ChangePercent(p, b) / 100.0)
  {
    assert ((p - b) / b * 100.0) / 100.0 == (p - b) / b;
    assert b * ((p - b) / b) == p - b;
  }

  /** The change is positive exactly when the price moved away from zero in the buy price's direction: up for a positive buy price, down for a negative one; no move is no change. */
  lemma ChangeSign(p: real, b: real)
    requires b != 0.0
    ensures b > 0.0 ==> (ChangePercent(p, b) > 0.0 <==> p > b)
    ensures b < 0.0 ==> (ChangePercent(p, b) > 0.0 <==> p < b)
    ensures ChangePercent(b, b) == 0.0
  {
    var q := (p - b) / b;
    assert p - b == b * q;
    if b > 0.0 {
      assert q > 0.0 <==> p > b;
    } else {
      assert q > 0.0 <==> p < b;
    }
  }
}
