/**
 * The front-end portfolio arithmetic (src/utils/mathHelper.js): the change
 * label of one coin, the two portfolio totals and the overall change.
 *
 * The totals read each asset's `amount` and one price property. As written
 * they read `price_current` and `price_buy`; the coins the backend sends carry
 * `currentPriceUsd` and `buyPriceUsd`, so both totals are 0 for them. The
 * generic fold `TotalOver` takes the property name; the `Corrected…`
 * members read the backend's names.
 */
module MathHelper {
  import opened Wrappers
  import opened Numeric
  import opened Js

  // ---------------------------------------------------------------------------
  // calculateChange
  // ---------------------------------------------------------------------------

  /**
   * `calculateChange(buyPrice, currentPrice)`: "N/A" when either price is
   * falsy, otherwise the sign ("+ " only for a positive change), the change
   * in percent rendered by `fixed2` (`toFixed(2)`), and "%".
   */
  function CalculateChange(buyPrice: Value, currentPrice: Value, fixed2: real -> string): string {
    if !Truthy(buyPrice) || !Truthy(currentPrice) then "N/A"
    else
      var change := PercentChange(ToNumber(currentPrice), ToNumber(buyPrice));
      (if Positive(change) then "+ " else "- ") + FixedText(change, fixed2) + "%"
  }

  /** The label is "N/A" exactly when one of the prices is falsy. */
  lemma ChangeNotApplicable(buyPrice: Value, currentPrice: Value, fixed2: real -> string)
    ensures CalculateChange(buyPrice, currentPrice, fixed2) == "N/A" <==> !Truthy(buyPrice) || !Truthy(currentPrice)
  {
    var r := CalculateChange(buyPrice, currentPrice, fixed2);
    if Truthy(buyPrice) && Truthy(currentPrice) {
      assert r[|r| - 1] == '%';
      assert "N/A"[2] == 'A';
    }
  }

  /** For two non-zero numbers the label is the sign, the rendered change in percent, and "%". */
  lemma ChangeOfNumbers(buy: real, current: real, fixed2: real -> string)
    requires buy != 0.0 && current != 0.0
    ensures CalculateChange(Num(buy), Num(current), fixed2) ==
              (if ChangePercent(current, buy) > 0.0 then "+ " else "- ") + fixed2(ChangePercent(current, buy)) + "%"
  {
  }

  /** Bought at a positive price, the label starts with "+ " exactly when the price rose; an unchanged price reads "- " and the rendered 0. */
  lemma GainIsMarkedPlus(buy: real, current: real, fixed2: real -> string)
    requires buy > 0.0 && current != 0.0
    ensures CalculateChange(Num(buy), Num(current), fixed2)[..2] == "+ " <==> current > buy
    ensures CalculateChange(Num(buy), Num(buy), fixed2) == "- " + fixed2(0.0) + "%"
  {
    ChangeOfNumbers(buy, current, fixed2);
    ChangeOfNumbers(buy, buy, fixed2);
    ChangeSign(current, buy);
    var sign := if ChangePercent(current, buy) > 0.0 then "+ " else "- ";
    assert (sign + fixed2(ChangePercent(current, buy)) + "%")[..2] == sign;
  }

  // ---------------------------------------------------------------------------
  // calculateTotalValue / calculateTotalBuyValue
  // ---------------------------------------------------------------------------

  /** One asset's contribution: `amount * price` when both parse, nothing otherwise. */
  function Term(asset: Object, priceKey: string): Option<real> {
    match (ParseFloatOf(Get(asset, "amount")), ParseFloatOf(Get(asset, priceKey)))
    case (Some(amount), Some(price)) => Some(Times(price, amount))
    case _ => None
  }

  /** `assets.reduce((sum, asset) => …, 0)` over the price property `priceKey`, left to right. */
  function TotalOver(assets: seq<Object>, priceKey: string): real
    decreases |assets|
  {
    if |assets| == 0 then 0.0
    else
      var sum := TotalOver(assets[..|assets| - 1], priceKey);
      match Term(assets[|assets| - 1], priceKey)
      case Some(v) => sum + v
      case None => sum
  }

  /** `calculateTotalValue`, as written: it reads `price_current`. */
  function CalculateTotalValue(assets: seq<Object>): real {
    TotalOver(assets, "price_current")
  }

  /** `calculateTotalBuyValue`, as written: it reads `price_buy`. */
  function CalculateTotalBuyValue(assets: seq<Object>): real {
    TotalOver(assets, "price_buy")
  }

  /** The total over the coins the backend sends, whose current price is `currentPriceUsd`. */
  function CorrectedTotalValue(assets: seq<Object>): real {
    TotalOver(assets, "currentPriceUsd")
  }

  /** The buy total over the coins the backend sends, whose buy price is `buyPriceUsd`. */
  function CorrectedTotalBuyValue(assets: seq<Object>): real {
    TotalOver(assets, "buyPriceUsd")
  }

  /** The contributions of the assets whose amount and price both parse, in order. */
  function ValidTerms(assets: seq<Object>, priceKey: string): (r: seq<real>)
    ensures |r| <= |assets|
    decreases |assets|
  {
    if |assets| == 0 then []
    else
      var rest := ValidTerms(assets[1..], priceKey);
      match Term(assets[0], priceKey)
      case Some(v) => [v] + rest
      case None => rest
  }

  /** The sum of a list of numbers, first to last. */
  function Sum(xs: seq<real>): real
    decreases |xs|
  {
    if |xs| == 0 then 0.0 else xs[0] + Sum(xs[1..])
  }

  /** Summing a list with one more number at the end adds that number. */
  lemma {:induction false} SumAppend(xs: seq<real>, x: real)
    ensures Sum(xs + [x]) == Sum(xs) + x
    decreases |xs|
  {
    if |xs| > 0 {
      assert (xs + [x])[1..] == xs[1..] + [x];
      SumAppend(xs[1..], x);
    } else {
      assert xs + [x] == [x];
    }
  }

  /** One more asset at the end adds its contribution, if any, at the end of the valid terms. */
  lemma {:induction false} ValidTermsAppend(assets: seq<Object>, a: Object, priceKey: string)
    ensures ValidTerms(assets + [a], priceKey) ==
              ValidTerms(assets, priceKey) + (if Term(a, priceKey).Some? then [Term(a, priceKey).value] else [])
    decreases |assets|
  {
    if |assets| == 0 {
      assert assets + [a] == [a];
      assert [a][1..] == [];
    } else {
      assert (assets + [a])[1..] == assets[1..] + [a];
      assert (assets + [a])[0] == assets[0];
      ValidTermsAppend(assets[1..], a, priceKey);
    }
  }

  /** A total is the sum of amount × price over exactly the assets whose two properties parse; the others contribute nothing. */
  lemma {:induction false} TotalIsSumOfValid(assets: seq<Object>, priceKey: string)
    ensures TotalOver(assets, priceKey) == Sum(ValidTerms(assets, priceKey))
    decreases |assets|
  {
    if |assets| > 0 {
      var init := assets[..|assets| - 1];
      var a := assets[|assets| - 1];
      TotalIsSumOfValid(init, priceKey);
      assert init + [a] == assets;
      ValidTermsAppend(init, a, priceKey);
      if Term(a, priceKey).Some? {
        var v := Term(a, priceKey).value;
        assert TotalOver(assets, priceKey) == TotalOver(init, priceKey) + v;
        assert ValidTerms(assets, priceKey) == ValidTerms(init, priceKey) + [v];
        SumAppend(ValidTerms(init, priceKey), v);
      } else {
        assert TotalOver(assets, priceKey) == TotalOver(init, priceKey);
        assert ValidTerms(init, priceKey) + [] == ValidTerms(init, priceKey);
      }
    }
  }

  /** The total of two lists one after the other is the sum of their totals. */
  lemma {:induction false} TotalConcat(xs: seq<Object>, ys: seq<Object>, priceKey: string)
    ensures TotalOver(xs + ys, priceKey) == TotalOver(xs, priceKey) + TotalOver(ys, priceKey)
    decreases |ys|
  {
    if |ys| == 0 {
      assert xs + ys == xs;
    } else {
      var init := ys[..|ys| - 1];
      assert (xs + ys)[..|xs + ys| - 1] == xs + init;
      assert (xs + ys)[|xs + ys| - 1] == ys[|ys| - 1];
      TotalConcat(xs, init, priceKey);
    }
  }

  /** Appending an asset adds its amount × price when both parse and nothing otherwise. */
  lemma AppendAsset(assets: seq<Object>, a: Object, priceKey: string)
    ensures var amount := ParseFloatOf(Get(a, "amount"));
            var price := ParseFloatOf(Get(a, priceKey));
            (amount.Some? && price.Some? ==>
               TotalOver(assets + [a], priceKey) == TotalOver(assets, priceKey) + Times(price.value, amount.value)) &&
            (amount.None? || price.None? ==> TotalOver(assets + [a], priceKey) == TotalOver(assets, priceKey))
  {
    var all := assets + [a];
    assert all[..|all| - 1] == assets;
    assert all[|all| - 1] == a;
  }

  // ---------------------------------------------------------------------------
  // calculateOverallChange
  // ---------------------------------------------------------------------------

  /** The argument of `calculateOverallChange`: an array of asset objects, or anything else. */
  datatype Arg = Array(assets: seq<Object>) | NotArray(v: Value)

  /** What `calculateOverallChange` returns: a number or the text "N/A". */
  datatype Outcome = Number(n: real) | Text(s: string)

  /** The overall change over the given price properties: 0 for a non-array, "N/A" for a zero buy total. */
  function OverallChangeOver(arg: Arg, currentKey: string, buyKey: string): Outcome {
    match arg
    case NotArray(_) => Number(0.0)
    case Array(assets) =>
      var buy := TotalOver(assets, buyKey);
      var current := TotalOver(assets, currentKey);
      if buy == 0.0 then Text("N/A") else Number(ChangePercent(current, buy))
  }

  /** `calculateOverallChange`, as written. */
  function CalculateOverallChange(arg: Arg): Outcome {
    OverallChangeOver(arg, "price_current", "price_buy")
  }

  /** The overall change over the backend's property names. */
  function CorrectedOverallChange(arg: Arg): Outcome {
    OverallChangeOver(arg, "currentPriceUsd", "buyPriceUsd")
  }

  /** A non-array gives 0; an array gives "N/A" exactly when its buy total is 0, and otherwise the change that takes the buy total to the current total. */
  lemma OverallChangeMeaning(arg: Arg, currentKey: string, buyKey: string)
    ensures arg.NotArray? ==> OverallChangeOver(arg, currentKey, buyKey) == Number(0.0)
    ensures arg.Array? ==> (OverallChangeOver(arg, currentKey, buyKey) == Text("N/A") <==> TotalOver(arg.assets, buyKey) == 0.0)
    ensures arg.Array? && OverallChangeOver(arg, currentKey, buyKey).Number? ==>
              TotalOver(arg.assets, currentKey) ==
                Times(TotalOver(arg.assets, buyKey), 1.0 + OverallChangeOver(arg, currentKey, buyKey).n / 100.0)
  {
    if arg.Array? && TotalOver(arg.assets, buyKey) != 0.0 {
      ChangeMeaning(TotalOver(arg.assets, currentKey), TotalOver(arg.assets, buyKey));
    }
  }

  // ---------------------------------------------------------------------------
  // The property-name mismatch
  // ---------------------------------------------------------------------------

  /** Assets without a `priceKey` property total 0 under it. */
  lemma {:induction false} TotalWithoutProperty(assets: seq<Object>, priceKey: string)
    requires forall k :: 0 <= k < |assets| ==> priceKey !in assets[k]
    ensures TotalOver(assets, priceKey) == 0.0
    decreases |assets|
  {
    if |assets| > 0 {
      TotalWithoutProperty(assets[..|assets| - 1], priceKey);
    }
  }

  /** As written, the helpers total 0 over the backend's coins and the overall change is always "N/A". */
  lemma AsWrittenMissesBackendCoins(assets: seq<Object>)
    requires forall k :: 0 <= k < |assets| ==> "price_current" !in assets[k] && "price_buy" !in assets[k]
    ensures CalculateTotalValue(assets) == 0.0
    ensures CalculateTotalBuyValue(assets) == 0.0
    ensures CalculateOverallChange(Array(assets)) == Text("N/A")
  {
    TotalWithoutProperty(assets, "price_current");
    TotalWithoutProperty(assets, "price_buy");
  }

  /** The three mock assets of mathHelper.test.js, with the properties the helpers read. */
  predicate SampleCoins(assets: seq<Object>) {
    assets == [
      map["amount" := Num(0.5), "currentPriceUsd" := Num(45000.0), "buyPriceUsd" := Num(40000.0)],
      map["amount" := Num(2.0), "currentPriceUsd" := Num(2500.0), "buyPriceUsd" := Num(2000.0)],
      map["amount" := Num(1000.0), "currentPriceUsd" := Num(0.5), "buyPriceUsd" := Num(0.4)]
    ]
  }

  /** The sum of three numbers, unfolded. */
  lemma SumOfThree(a: real, b: real, c: real)
    ensures Sum([a, b, c]) == a + b + c
  {
    assert [a, b, c][1..] == [b, c];
    assert [b, c][1..] == [c];
    assert [c][1..] == [];
    assert Sum([c]) == c;
    assert Sum([b, c]) == b + c;
  }

  /** The valid terms of the sample coins under one of their price properties. */
  lemma SampleTerms(assets: seq<Object>, priceKey: string, p0: real, p1: real, p2: real)
    requires SampleCoins(assets)
    requires (priceKey == "currentPriceUsd" && p0 == 45000.0 && p1 == 2500.0 && p2 == 0.5) ||
             (priceKey == "buyPriceUsd" && p0 == 40000.0 && p1 == 2000.0 && p2 == 0.4)
    ensures ValidTerms(assets, priceKey) == [Times(p0, 0.5), Times(p1, 2.0), Times(p2, 1000.0)]
  {
    assert Get(assets[2], "amount") == Num(1000.0) && Get(assets[2], priceKey) == Num(p2);
    assert Term(assets[2], priceKey) == Some(Times(p2, 1000.0));
    assert assets[2..][1..] == [];
    assert ValidTerms(assets[2..], priceKey) == [Times(p2, 1000.0)];
    assert Get(assets[1], "amount") == Num(2.0) && Get(assets[1], priceKey) == Num(p1);
    assert Term(assets[1], priceKey) == Some(Times(p1, 2.0));
    assert assets[1..][1..] == assets[2..];
    assert ValidTerms(assets[1..], priceKey) == [Times(p1, 2.0), Times(p2, 1000.0)];
    assert Get(assets[0], "amount") == Num(0.5) && Get(assets[0], priceKey) == Num(p0);
    assert Term(assets[0], priceKey) == Some(Times(p0, 0.5));
  }

  /** On the sample coins the as-written totals are 0 and the overall change is "N/A". */
  lemma SampleCoinsAsWritten(assets: seq<Object>)
    requires SampleCoins(assets)
    ensures CalculateTotalValue(assets) == 0.0 && CalculateTotalBuyValue(assets) == 0.0
    ensures CalculateOverallChange(Array(assets)) == Text("N/A")
  {
    forall k | 0 <= k < |assets|
      ensures "price_current" !in assets[k] && "price_buy" !in assets[k]
    {
      assert assets[k].Keys == {"amount", "currentPriceUsd", "buyPriceUsd"};
    }
    AsWrittenMissesBackendCoins(assets);
  }

  /** On the sample coins the corrected totals are 28000 and 24400, and the overall change, from 24400 to 28000, is about 14.75 %. */
  lemma SampleCoinsCorrected(assets: seq<Object>)
    requires SampleCoins(assets)
    ensures CorrectedTotalValue(assets) == 28000.0
    ensures CorrectedTotalBuyValue(assets) == 24400.0
    ensures CorrectedOverallChange(Array(assets)) == Number(ChangePercent(28000.0, 24400.0))
    ensures 14.75 < ChangePercent(28000.0, 24400.0) < 14.76
  {
    TotalIsSumOfValid(assets, "currentPriceUsd");
    TotalIsSumOfValid(assets, "buyPriceUsd");
    SampleTerms(assets, "currentPriceUsd", 45000.0, 2500.0, 0.5);
    SampleTerms(assets, "buyPriceUsd", 40000.0, 2000.0, 0.4);
    assert Times(45000.0, 0.5) == 22500.0 && Times(2500.0, 2.0) == 5000.0 && Times(0.5, 1000.0) == 500.0;
    assert Times(40000.0, 0.5) == 20000.0 && Times(2000.0, 2.0) == 4000.0 && Times(0.4, 1000.0) == 400.0;
    SumOfThree(22500.0, 5000.0, 500.0);
    SumOfThree(20000.0, 4000.0, 400.0);
  }
}
