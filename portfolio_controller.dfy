/**
 * The portfolio controller (Controllers/PortfolioController.cs): reading an
 * uploaded holdings file line by line, resolving the symbols to CoinLore ids,
 * valuing every holding against the current quotes, and saving what was
 * valued.
 *
 * Every exception the controller lets escape is an `Err` of `Failure`:
 * a malformed line, a number `decimal.Parse` rejects, a quote element that
 * cannot be read, and the `DivideByZeroException` of decimal division by a
 * zero buy value, which the code does not guard against.
 */
module Controllers {
  import opened Wrappers
  import opened Text
  import opened Numeric
  import opened Models
  import CoinLore
  import Storage

  /** The exceptions that escape the controller. */
  datatype Failure =
    | InvalidLine(line: string)
    | BadNumber(text: string)
    | DivideByZero
    | BadTicker(error: CoinLore.JsonError)

  /** What an endpoint answers: a 400 with a message, a 200 with the valuation, or an unhandled exception. */
  datatype Response = BadRequest(message: string) | Success(result: PortfolioResult) | Failed(failure: Failure)

  /** `decimal.Parse(text)`, throwing `FormatException` on a malformed literal. */
  function ParseNumber(text: string): Result<real, Failure> {
    match ParseDecimal(text)
    case Some(v) => Ok(v)
    case None => Err(BadNumber(text))
  }

  // ---------------------------------------------------------------------------
  // Parsing one line: amount|symbol[|purchase price]
  // ---------------------------------------------------------------------------

  /** `_parseLine`: split on '|', amount from the first field, trimmed symbol from the second, purchase price from the third or 0. */
  function ParseLine(line: string): Result<PortfolioItem, Failure> {
    var parts := Split(line, '|');
    if |parts| < 2 then Err(InvalidLine(line))
    else
      var amount :- ParseNumber(parts[0]);
      var symbol := Trim(parts[1]);
      var purchase :- if |parts| > 2 then ParseNumber(parts[2]) else Ok(0.0);
      Ok(PortfolioItem(symbol, amount, purchase))
  }

  /** A line built from '|'-free fields parses field by field; fields after the third are ignored. */
  lemma ParseLineFields(fields: seq<string>)
    requires |fields| >= 1
    requires forall k :: 0 <= k < |fields| ==> '|' !in fields[k]
    ensures |fields| < 2 ==> ParseLine(Join(fields, "|")) == Err(InvalidLine(Join(fields, "|")))
    ensures |fields| >= 2 ==>
              ParseLine(Join(fields, "|")) ==
                if ParseDecimal(fields[0]).None? then Err(BadNumber(fields[0]))
                else if |fields| > 2 && ParseDecimal(fields[2]).None? then Err(BadNumber(fields[2]))
                else Ok(PortfolioItem(Trim(fields[1]), ParseDecimal(fields[0]).value,
                                      if |fields| > 2 then ParseDecimal(fields[2]).value else 0.0))
  {
    SplitJoin(fields, '|');
  }

  /** A line without any '|' is rejected as invalid. */
  lemma NoSeparatorIsInvalid(line: string)
    requires '|' !in line
    ensures ParseLine(line) == Err(InvalidLine(line))
  {
    assert Join([line], "|") == line;
    ParseLineFields([line]);
  }

  /** A line of three '|'-free fields reads as amount, trimmed symbol and purchase price, failing on the first number that does not parse. */
  lemma ParseLineOfThree(amount: string, symbol: string, price: string)
    requires '|' !in amount && '|' !in symbol && '|' !in price
    ensures ParseLine(amount + "|" + symbol + "|" + price) ==
              if ParseDecimal(amount).None? then Err(BadNumber(amount))
              else if ParseDecimal(price).None? then Err(BadNumber(price))
              else Ok(PortfolioItem(Trim(symbol), ParseDecimal(amount).value, ParseDecimal(price).value))
  {
    var fields := [amount, symbol, price];
    assert fields[1..][1..] == [price];
    assert Join(fields[1..], "|") == symbol + "|" + price;
    assert Join(fields, "|") == amount + "|" + symbol + "|" + price;
    ParseLineFields(fields);
  }

  /** A line of two '|'-free fields reads as amount and trimmed symbol, with purchase price 0. */
  lemma ParseLineOfTwo(amount: string, symbol: string)
    requires '|' !in amount && '|' !in symbol
    ensures ParseLine(amount + "|" + symbol) ==
              if ParseDecimal(amount).None? then Err(BadNumber(amount))
              else Ok(PortfolioItem(Trim(symbol), ParseDecimal(amount).value, 0.0))
  {
    var fields := [amount, symbol];
    assert fields[1..] == [symbol];
    assert Join(fields, "|") == amount + "|" + symbol;
    ParseLineFields(fields);
  }

  /** A third field that is present but empty makes the line fail. */
  lemma EmptyPriceIsRejected(amount: string, symbol: string)
    requires '|' !in amount && '|' !in symbol
    requires ParseDecimal(amount).Some?
    ensures ParseLine(amount + "|" + symbol + "|") == Err(BadNumber(""))
  {
    assert amount + "|" + symbol + "|" == amount + "|" + symbol + "|" + "";
    ParseLineOfThree(amount, symbol, "");
    NoDigitNoDecimal("");
  }

  /** "1.5|BTC|50000" is 1.5 BTC bought at 50000. */
  lemma ParsesFullLine(line: string)
    requires line == "1.5|BTC|50000"
    ensures ParseLine(line) == Ok(PortfolioItem("BTC", 1.5, 50000.0))
  {
    var amount, symbol, price := "1.5", "BTC", "50000";
    assert line == amount + "|" + symbol + "|" + price;
    ParseLineOfThree(amount, symbol, price);
    ParsesOnePointFive(amount);
    ParsesFiftyThousand(price);
    TrimNoBlankEnds(symbol);
  }

  /** "2.5|ETH" is 2.5 ETH with purchase price 0. */
  lemma ParsesShortLine(line: string)
    requires line == "2.5|ETH"
    ensures ParseLine(line) == Ok(PortfolioItem("ETH", 2.5, 0.0))
  {
    var amount, symbol := "2.5", "ETH";
    assert line == amount + "|" + symbol;
    ParseLineOfTwo(amount, symbol);
    ParsesTwoPointFive(amount);
    TrimNoBlankEnds(symbol);
  }

  /** "invalid|BTC|50000" fails on its amount. */
  lemma RejectsBadAmount(line: string)
    requires line == "invalid|BTC|50000"
    ensures ParseLine(line) == Err(BadNumber("invalid"))
  {
    var amount, symbol, price := "invalid", "BTC", "50000";
    assert line == amount + "|" + symbol + "|" + price;
    ParseLineOfThree(amount, symbol, price);
    RejectsWord(amount);
  }

  // ---------------------------------------------------------------------------
  // Reading the uploaded file
  // ---------------------------------------------------------------------------

  /** The holdings collected from a file, and the exception that stopped the reading, if any. */
  datatype Load = Load(items: seq<PortfolioItem>, failure: Option<Failure>)

  /** The upload loop over `lines`: each line trimmed, blank ones skipped, the rest parsed and appended until one fails. */
  function LoadLines(lines: seq<string>): Load
    decreases |lines|
  {
    if |lines| == 0 then Load([], None)
    else
      var before := LoadLines(lines[..|lines| - 1]);
      var line := Trim(lines[|lines| - 1]);
      if before.failure.Some? || IsBlank(line) then before
      else match ParseLine(line)
        case Ok(item) => Load(before.items + [item], None)
        case Err(e) => Load(before.items, Some(e))
  }

  /** The trimmed non-blank lines of a file, in file order. */
  function NonBlankLines(lines: seq<string>): (r: seq<string>)
    ensures forall k :: 0 <= k < |r| ==> !IsBlank(r[k])
    decreases |lines|
  {
    if |lines| == 0 then []
    else
      var line := Trim(lines[|lines| - 1]);
      NonBlankLines(lines[..|lines| - 1]) + (if IsBlank(line) then [] else [line])
  }

  /** A file reads without failure exactly when every trimmed non-blank line parses, and then yields one holding per such line, in order. */
  lemma {:induction false} LoadParsesNonBlankLines(lines: seq<string>)
    ensures LoadLines(lines).failure.None? <==>
              forall k :: 0 <= k < |NonBlankLines(lines)| ==> ParseLine(NonBlankLines(lines)[k]).Ok?
    ensures LoadLines(lines).failure.None? ==>
              |LoadLines(lines).items| == |NonBlankLines(lines)| &&
              forall k :: 0 <= k < |NonBlankLines(lines)| ==> ParseLine(NonBlankLines(lines)[k]) == Ok(LoadLines(lines).items[k])
    decreases |lines|
  {
    if |lines| > 0 {
      var init := lines[..|lines| - 1];
      LoadParsesNonBlankLines(init);
      LoadLast(lines);
      var nb := NonBlankLines(init);
      var before := LoadLines(init);
      var line := Trim(lines[|lines| - 1]);
      if !IsBlank(line) {
        var all := NonBlankLines(lines);
        assert all == nb + [line];
        assert forall k :: 0 <= k < |nb| ==> all[k] == nb[k];
        assert all[|nb|] == line;
        if before.failure.None? && ParseLine(line).Ok? {
          var items := LoadLines(lines).items;
          assert items == before.items + [ParseLine(line).value];
          assert forall k :: 0 <= k < |nb| ==> items[k] == before.items[k];
        }
      } else {
        assert NonBlankLines(lines) == nb;
        assert LoadLines(lines) == before;
      }
    }
  }

  /** One more line: no change after a failure or for a blank line, otherwise its holding or its failure. */
  lemma LoadLast(lines: seq<string>)
    requires |lines| > 0
    ensures var before := LoadLines(lines[..|lines| - 1]);
            var line := Trim(lines[|lines| - 1]);
            (before.failure.Some? || IsBlank(line) ==> LoadLines(lines) == before) &&
            (before.failure.None? && !IsBlank(line) && ParseLine(line).Err? ==>
               LoadLines(lines) == Load(before.items, Some(ParseLine(line).error))) &&
            (before.failure.None? && !IsBlank(line) && ParseLine(line).Ok? ==>
               LoadLines(lines) == Load(before.items + [ParseLine(line).value], None))
  {
  }

  /** The line at `n` is the one that stopped the reading of `lines`. */
  predicate StoppedAt(lines: seq<string>, n: int)
    requires LoadLines(lines).failure.Some?
  {
    0 <= n < |lines| &&
    LoadLines(lines[..n]).failure.None? &&
    !IsBlank(Trim(lines[n])) &&
    ParseLine(Trim(lines[n])) == Err(LoadLines(lines).failure.value) &&
    LoadLines(lines).items == LoadLines(lines[..n]).items
  }

  /** A failing line stops the reading: the holdings are those of the lines before it, and that line's error is reported. */
  lemma {:induction false} LoadStopsAtFirstFailure(lines: seq<string>)
    requires LoadLines(lines).failure.Some?
    ensures exists n :: StoppedAt(lines, n)
    decreases |lines|
  {
    var n := |lines| - 1;
    var init := lines[..n];
    LoadLast(lines);
    if LoadLines(init).failure.Some? {
      LoadStopsAtFirstFailure(init);
      var j :| StoppedAt(init, j);
      assert init[..j] == lines[..j];
      assert init[j] == lines[j];
      assert StoppedAt(lines, j);
    } else {
      assert StoppedAt(lines, n);
    }
  }

  /** Once reading has failed, later lines change nothing. */
  lemma {:induction false} LoadFailureSticks(lines: seq<string>, n: nat)
    requires n <= |lines|
    requires LoadLines(lines[..n]).failure.Some?
    ensures LoadLines(lines) == LoadLines(lines[..n])
    decreases |lines| - n
  {
    if n < |lines| {
      assert lines[..n + 1][..n] == lines[..n];
      LoadFailureSticks(lines, n + 1);
    } else {
      assert lines[..n] == lines;
    }
  }

  /** A blank line contributes nothing. */
  lemma BlankLineIgnored(lines: seq<string>, blank: string)
    requires IsBlank(blank)
    ensures LoadLines(lines + [blank]) == LoadLines(lines)
  {
    var all := lines + [blank];
    assert all[..|all| - 1] == lines;
    TrimShape(blank);
  }

  // ---------------------------------------------------------------------------
  // Valuing the holdings
  // ---------------------------------------------------------------------------

  /** The first ticker whose upper-cased symbol equals the upper-cased `symbol`. */
  function FindTicker(tickers: seq<CoinLoreTicker>, symbol: string): Option<CoinLoreTicker>
    decreases |tickers|
  {
    if |tickers| == 0 then None
    else if ToUpper(tickers[0].symbol) == ToUpper(symbol) then Some(tickers[0])
    else FindTicker(tickers[1..], symbol)
  }

  /** The lookup of a holding's quote finds nothing exactly when no ticker has its symbol (compared upper-cased), and otherwise the earliest ticker that has it. */
  lemma {:induction false} FindTickerIsFirst(tickers: seq<CoinLoreTicker>, symbol: string)
    ensures FindTicker(tickers, symbol).None? <==>
              forall k :: 0 <= k < |tickers| ==> ToUpper(tickers[k].symbol) != ToUpper(symbol)
    ensures FindTicker(tickers, symbol).Some? ==>
              exists k :: 0 <= k < |tickers| && tickers[k] == FindTicker(tickers, symbol).value &&
                          ToUpper(tickers[k].symbol) == ToUpper(symbol) &&
                          forall j :: 0 <= j < k ==> ToUpper(tickers[j].symbol) != ToUpper(symbol)
    decreases |tickers|
  {
    if |tickers| > 0 && ToUpper(tickers[0].symbol) != ToUpper(symbol) {
      var rest := tickers[1..];
      FindTickerIsFirst(rest, symbol);
      assert forall k :: 0 <= k < |rest| ==> rest[k] == tickers[k + 1];
      if FindTicker(rest, symbol).Some? {
        var k :| 0 <= k < |rest| && rest[k] == FindTicker(rest, symbol).value &&
                 ToUpper(rest[k].symbol) == ToUpper(symbol) &&
                 forall j :: 0 <= j < k ==> ToUpper(rest[j].symbol) != ToUpper(symbol);
        assert tickers[k + 1] == rest[k];
        assert forall j :: 1 <= j < k + 1 ==> tickers[j] == rest[j - 1];
      } else {
        assert forall k :: 1 <= k < |tickers| ==> tickers[k] == rest[k - 1];
      }
    }
  }

  /**
   * One coin line, in the order the object initializer evaluates it: the price
   * (invariant culture), the 24h and 7d changes, then the change since purchase.
   */
  function ValueCoin(h: PortfolioItem, t: CoinLoreTicker): Result<CoinResult, Failure> {
    var price :- ParseNumber(t.priceUsd);
    var change24h :- ParseNumber(t.percentChange24h);
    var change7d :- ParseNumber(t.percentChange7d);
    var buy := h.purchasePriceUsd;
    if buy == 0.0 then Err(DivideByZero)
    else Ok(CoinResult(ToUpper(h.symbol), t.id, price, buy, h.amount, Times(price, h.amount),
                       change24h, change7d, ChangePercent(price, buy), t.name))
  }

  /** The holdings that have a ticker, in holding order. */
  function Matched(hs: seq<PortfolioItem>, ts: seq<CoinLoreTicker>): (r: seq<PortfolioItem>)
    ensures forall k :: 0 <= k < |r| ==> FindTicker(ts, r[k].symbol).Some?
    decreases |hs|
  {
    if |hs| == 0 then []
    else
      var h := hs[|hs| - 1];
      Matched(hs[..|hs| - 1], ts) + (if FindTicker(ts, h.symbol).Some? then [h] else [])
  }

  /** The coin line of a matched holding. */
  function CoinFor(h: PortfolioItem, ts: seq<CoinLoreTicker>): Result<CoinResult, Failure>
    requires FindTicker(ts, h.symbol).Some?
  {
    ValueCoin(h, FindTicker(ts, h.symbol).value)
  }

  /** The loop of `_calculatePortfolio`: a coin line per holding with a ticker; the first failing line aborts. */
  function Coins(hs: seq<PortfolioItem>, ts: seq<CoinLoreTicker>): Result<seq<CoinResult>, Failure>
    decreases |hs|
  {
    if |hs| == 0 then Ok([])
    else
      var before :- Coins(hs[..|hs| - 1], ts);
      var h := hs[|hs| - 1];
      match FindTicker(ts, h.symbol)
      case None => Ok(before)
      case Some(t) =>
        var c :- ValueCoin(h, t);
        Ok(before + [c])
  }

  /** Σ BuyPriceUsd × Amount. */
  function TotalBuy(cs: seq<CoinResult>): real
    decreases |cs|
  {
    if |cs| == 0 then 0.0 else TotalBuy(cs[..|cs| - 1]) + Times(cs[|cs| - 1].buyPriceUsd, cs[|cs| - 1].amount)
  }

  /** Σ CurrentPriceUsd × Amount. */
  function TotalCurrent(cs: seq<CoinResult>): real
    decreases |cs|
  {
    if |cs| == 0 then 0.0 else TotalCurrent(cs[..|cs| - 1]) + Times(cs[|cs| - 1].currentPriceUsd, cs[|cs| - 1].amount)
  }

  /** Σ ValueUsd. */
  function TotalValue(cs: seq<CoinResult>): real
    decreases |cs|
  {
    if |cs| == 0 then 0.0 else TotalValue(cs[..|cs| - 1]) + cs[|cs| - 1].valueUsd
  }

  /** `_calculatePortfolio` once the quotes are in: the coin lines and the totals. */
  function Valuation(hs: seq<PortfolioItem>, ts: seq<CoinLoreTicker>): Result<PortfolioResult, Failure> {
    var coins :- Coins(hs, ts);
    var buy := TotalBuy(coins);
    var current := TotalCurrent(coins);
    if buy == 0.0 then Err(DivideByZero)
    else Ok(PortfolioResult(coins, current, ChangePercent(current, buy)))
  }

  /** `_calculatePortfolio`: fetch the quotes of `ids`, then value `hs` against them. */
  function ValuationOf(hs: seq<PortfolioItem>, ids: seq<string>, fetch: string -> Option<seq<CoinLore.JsonObject>>): Result<PortfolioResult, Failure> {
    match CoinLore.TickersByIds(ids, fetch)
    case Err(e) => Err(BadTicker(e))
    case Ok(ts) => Valuation(hs, ts)
  }

  /** A coin line succeeds exactly when the three quote figures parse and the buy price is not 0; an unparsable price is reported first, a zero buy price last. */
  lemma CoinLineOutcome(h: PortfolioItem, t: CoinLoreTicker)
    ensures ValueCoin(h, t).Ok? <==>
              ParseDecimal(t.priceUsd).Some? && ParseDecimal(t.percentChange24h).Some? &&
              ParseDecimal(t.percentChange7d).Some? && h.purchasePriceUsd != 0.0
    ensures ParseDecimal(t.priceUsd).None? ==> ValueCoin(h, t) == Err(BadNumber(t.priceUsd))
    ensures (ParseDecimal(t.priceUsd).Some? && ParseDecimal(t.percentChange24h).Some? &&
             ParseDecimal(t.percentChange7d).Some? && h.purchasePriceUsd == 0.0) ==>
              ValueCoin(h, t) == Err(DivideByZero)
  {
    if ParseDecimal(t.priceUsd).None? {
      assert ParseNumber(t.priceUsd).Err?;
    } else if ParseDecimal(t.percentChange24h).None? {
      assert ParseNumber(t.percentChange24h).Err?;
    } else if ParseDecimal(t.percentChange7d).None? {
      assert ParseNumber(t.percentChange7d).Err?;
    }
  }

  /** What a coin line holds: the holding's upper-cased symbol, amount and buy price, the ticker's id, name and parsed figures, its value, and the change from the buy price to the current price. */
  lemma CoinLine(h: PortfolioItem, t: CoinLoreTicker)
    requires ValueCoin(h, t).Ok?
    ensures var c := ValueCoin(h, t).value;
            c.symbol == ToUpper(h.symbol) && c.id == t.id && c.name == t.name &&
            c.amount == h.amount && c.buyPriceUsd == h.purchasePriceUsd &&
            Some(c.currentPriceUsd) == ParseDecimal(t.priceUsd) &&
            Some(c.changePercent24h) == ParseDecimal(t.percentChange24h) &&
            Some(c.changePercent7d) == ParseDecimal(t.percentChange7d) &&
            c.valueUsd == Times(c.currentPriceUsd, c.amount) &&
            c.buyPriceUsd != 0.0 &&
            c.changePercentTotal == ChangePercent(c.currentPriceUsd, c.buyPriceUsd)
  {
    CoinLineOutcome(h, t);
    var price := ParseDecimal(t.priceUsd).value;
    var buy := h.purchasePriceUsd;
    assert ValueCoin(h, t).value ==
           CoinResult(ToUpper(h.symbol), t.id, price, buy, h.amount, Times(price, h.amount),
                      ParseDecimal(t.percentChange24h).value, ParseDecimal(t.percentChange7d).value,
                      ChangePercent(price, buy), t.name);
  }

  /** One more holding: nothing when it has no ticker, otherwise its coin line or its failure. */
  lemma CoinsLast(hs: seq<PortfolioItem>, ts: seq<CoinLoreTicker>)
    requires |hs| > 0 && Coins(hs[..|hs| - 1], ts).Ok?
    ensures var before := Coins(hs[..|hs| - 1], ts).value;
            var h := hs[|hs| - 1];
            (FindTicker(ts, h.symbol).None? ==> Coins(hs, ts) == Ok(before)) &&
            (FindTicker(ts, h.symbol).Some? && CoinFor(h, ts).Err? ==> Coins(hs, ts) == Err(CoinFor(h, ts).error)) &&
            (FindTicker(ts, h.symbol).Some? && CoinFor(h, ts).Ok? ==> Coins(hs, ts) == Ok(before + [CoinFor(h, ts).value]))
  {
  }

  /** One more holding extends the matched holdings exactly when it has a ticker. */
  lemma MatchedLast(hs: seq<PortfolioItem>, ts: seq<CoinLoreTicker>)
    requires |hs| > 0
    ensures var m := Matched(hs[..|hs| - 1], ts);
            var h := hs[|hs| - 1];
            Matched(hs, ts) == if FindTicker(ts, h.symbol).Some? then m + [h] else m
  {
  }

  /** Valuing the holdings fails exactly when the coin line of some matched holding fails. */
  lemma {:induction false} CoinsSucceed(hs: seq<PortfolioItem>, ts: seq<CoinLoreTicker>)
    ensures Coins(hs, ts).Ok? <==>
              forall k :: 0 <= k < |Matched(hs, ts)| ==> CoinFor(Matched(hs, ts)[k], ts).Ok?
    decreases |hs|
  {
    if |hs| > 0 {
      var n := |hs| - 1;
      var init := hs[..n];
      CoinsSucceed(init, ts);
      MatchedLast(hs, ts);
      var m := Matched(init, ts);
      var h := hs[n];
      if Coins(init, ts).Err? {
        assert hs[..n] == init;
        CoinsFailureSticks(hs, ts, n);
        if FindTicker(ts, h.symbol).Some? {
          assert forall k :: 0 <= k < |m| ==> Matched(hs, ts)[k] == m[k];
        }
      } else {
        CoinsLast(hs, ts);
        if FindTicker(ts, h.symbol).Some? {
          var all := Matched(hs, ts);
          assert forall k :: 0 <= k < |m| ==> all[k] == m[k];
          assert all[|m|] == h;
        }
      }
    }
  }

  /** Coin lines come one per matched holding, in holding order, each from the first ticker with the holding's symbol. */
  lemma {:induction false} CoinsFollowHoldings(hs: seq<PortfolioItem>, ts: seq<CoinLoreTicker>)
    requires Coins(hs, ts).Ok?
    ensures |Coins(hs, ts).value| == |Matched(hs, ts)|
    ensures forall k :: 0 <= k < |Matched(hs, ts)| ==> CoinFor(Matched(hs, ts)[k], ts) == Ok(Coins(hs, ts).value[k])
    decreases |hs|
  {
    if |hs| > 0 {
      var n := |hs| - 1;
      var init := hs[..n];
      CoinsPrefixOk(hs, ts, n);
      CoinsFollowHoldings(init, ts);
      CoinsLast(hs, ts);
      MatchedLast(hs, ts);
      var m := Matched(init, ts);
      var h := hs[n];
      var before := Coins(init, ts).value;
      if FindTicker(ts, h.symbol).Some? {
        var all := Matched(hs, ts);
        var c := CoinFor(h, ts).value;
        var cs := before + [c];
        assert Coins(hs, ts).value == cs;
        forall k | 0 <= k < |all|
          ensures CoinFor(all[k], ts) == Ok(cs[k])
        {
          if k < |m| {
            assert all[k] == m[k] && cs[k] == before[k];
          } else {
            assert all[k] == h && cs[k] == c;
          }
        }
      }
    }
  }

  /** With no holding matched (an empty portfolio included) the overall change divides by zero. */
  lemma NothingMatchedDividesByZero(hs: seq<PortfolioItem>, ts: seq<CoinLoreTicker>)
    requires Matched(hs, ts) == []
    ensures Valuation(hs, ts) == Err(DivideByZero)
  {
    CoinsSucceed(hs, ts);
    CoinsFollowHoldings(hs, ts);
  }

  /** A matched holding bought at 0 whose quote parses makes the valuation fail (on it or on an earlier line). */
  lemma ZeroBuyPriceFails(hs: seq<PortfolioItem>, ts: seq<CoinLoreTicker>, k: nat)
    requires k < |Matched(hs, ts)|
    requires Matched(hs, ts)[k].purchasePriceUsd == 0.0
    ensures Valuation(hs, ts).Err?
  {
    if Coins(hs, ts).Ok? {
      CoinsFollowHoldings(hs, ts);
      var h := Matched(hs, ts)[k];
      assert CoinFor(h, ts).Ok?;
      CoinLineOutcome(h, FindTicker(ts, h.symbol).value);
    }
  }

  /** Every coin line the loop produces carries ValueUsd = CurrentPriceUsd × Amount. */
  lemma {:induction false} CoinsValued(hs: seq<PortfolioItem>, ts: seq<CoinLoreTicker>)
    requires Coins(hs, ts).Ok?
    ensures TotalValue(Coins(hs, ts).value) == TotalCurrent(Coins(hs, ts).value)
    decreases |hs|
  {
    if |hs| > 0 {
      var n := |hs| - 1;
      var init := hs[..n];
      CoinsPrefixOk(hs, ts, n);
      CoinsValued(init, ts);
      CoinsLast(hs, ts);
      var before := Coins(init, ts).value;
      var cs := Coins(hs, ts).value;
      var h := hs[n];
      if FindTicker(ts, h.symbol).Some? {
        var c := CoinFor(h, ts).value;
        CoinLine(h, FindTicker(ts, h.symbol).value);
        assert cs == before + [c];
        assert cs[..|cs| - 1] == before && cs[|cs| - 1] == c;
      }
    }
  }

  /** Valuing succeeds exactly when every coin line does and the buy total is not 0; a zero buy total divides by zero. */
  lemma ValuationOutcome(hs: seq<PortfolioItem>, ts: seq<CoinLoreTicker>)
    ensures Valuation(hs, ts).Ok? <==> Coins(hs, ts).Ok? && TotalBuy(Coins(hs, ts).value) != 0.0
    ensures Coins(hs, ts).Ok? && TotalBuy(Coins(hs, ts).value) == 0.0 ==> Valuation(hs, ts) == Err(DivideByZero)
  {
    var rc := Coins(hs, ts);
    if rc.Ok? {
      var cs := rc.value;
      if TotalBuy(cs) == 0.0 {
        assert Valuation(hs, ts) == Err(DivideByZero);
      } else {
        assert Valuation(hs, ts).Ok?;
      }
    } else {
      assert Valuation(hs, ts) == Err(rc.error);
    }
  }

  /** A valuation reports the loop's coin lines, their summed value, and the overall change from the buy total to that value (read by `ChangeMeaning`). */
  lemma ValuationTotals(hs: seq<PortfolioItem>, ts: seq<CoinLoreTicker>)
    requires Valuation(hs, ts).Ok?
    ensures var r := Valuation(hs, ts).value;
            r.coins == Coins(hs, ts).value &&
            r.totalValueUsd == TotalValue(r.coins) &&
            TotalBuy(r.coins) != 0.0 &&
            r.totalChangeUsd == ChangePercent(r.totalValueUsd, TotalBuy(r.coins))
  {
    var cs := Coins(hs, ts).value;
    var buy := TotalBuy(cs);
    var current := TotalCurrent(cs);
    var r := PortfolioResult(cs, current, ChangePercent(current, buy));
    assert Valuation(hs, ts) == Ok(r);
    CoinsValued(hs, ts);
  }

  /** The holdings of the two-coin example. */
  predicate ExampleHoldings(hs: seq<PortfolioItem>) {
    hs == [PortfolioItem("BTC", 2.0, 10000.0), PortfolioItem("ETH", 10.0, 2000.0)]
  }

  /** The quotes of the two-coin example. */
  predicate ExampleTickers(ts: seq<CoinLoreTicker>) {
    ts == [CoinLoreTicker("90", "BTC", "Bitcoin", "12000", "5", "10"),
           CoinLoreTicker("80", "ETH", "Ethereum", "2500", "3", "8")]
  }

  /** The figures of one example quote parse, its price to `price`. */
  lemma ExampleQuote(t: CoinLoreTicker, price: real, change24h: string, change7d: string)
    requires (t.priceUsd == "12000" && price == 12000.0) || (t.priceUsd == "2500" && price == 2500.0)
    requires t.percentChange24h == change24h && t.percentChange7d == change7d
    requires (change24h == "5" && change7d == "10") || (change24h == "3" && change7d == "8")
    ensures ParseDecimal(t.priceUsd) == Some(price)
    ensures ParseDecimal(t.percentChange24h).Some? && ParseDecimal(t.percentChange7d).Some?
  {
    if price == 12000.0 {
      ParsesTwelveThousand(t.priceUsd);
    } else {
      ParsesTwentyFiveHundred(t.priceUsd);
    }
    assert |change24h| == 1 && IsDigit(change24h[0]);
    assert DigitsBetween(change7d, 0, |change7d|);
    ParseDecimalInteger(change24h);
    ParseDecimalInteger(change7d);
  }

  /** The example's quotes all parse, the prices to 12000 and 2500. */
  lemma ExampleQuotes(ts: seq<CoinLoreTicker>)
    requires ExampleTickers(ts)
    ensures ParseDecimal(ts[0].priceUsd) == Some(12000.0)
    ensures ParseDecimal(ts[1].priceUsd) == Some(2500.0)
    ensures ParseDecimal(ts[0].percentChange24h).Some? && ParseDecimal(ts[0].percentChange7d).Some?
    ensures ParseDecimal(ts[1].percentChange24h).Some? && ParseDecimal(ts[1].percentChange7d).Some?
  {
    ExampleQuote(ts[0], 12000.0, "5", "10");
    ExampleQuote(ts[1], 2500.0, "3", "8");
  }

  /** Each example holding finds the quote with its symbol. */
  lemma ExampleMatches(hs: seq<PortfolioItem>, ts: seq<CoinLoreTicker>)
    requires ExampleHoldings(hs) && ExampleTickers(ts)
    ensures FindTicker(ts, hs[0].symbol) == Some(ts[0])
    ensures FindTicker(ts, hs[1].symbol) == Some(ts[1])
  {
    assert ToUpper(ts[0].symbol)[0] == 'B' && ToUpper(ts[1].symbol)[0] == 'E';
  }

  /** Two holdings that both find and value their quotes give two coin lines, in order. */
  lemma CoinsOfTwo(hs: seq<PortfolioItem>, ts: seq<CoinLoreTicker>, t1: CoinLoreTicker, t2: CoinLoreTicker)
    requires |hs| == 2
    requires FindTicker(ts, hs[0].symbol) == Some(t1) && FindTicker(ts, hs[1].symbol) == Some(t2)
    requires ValueCoin(hs[0], t1).Ok? && ValueCoin(hs[1], t2).Ok?
    ensures Coins(hs, ts) == Ok([ValueCoin(hs[0], t1).value, ValueCoin(hs[1], t2).value])
  {
    var c1 := ValueCoin(hs[0], t1).value;
    var c2 := ValueCoin(hs[1], t2).value;
    assert hs[..1][..0] == [];
    assert Coins(hs[..1][..0], ts) == Ok([]);
    var one := hs[..1];
    assert |one| == 1 && one[0] == hs[0];
    assert one[..|one| - 1] == [];
    assert FindTicker(ts, one[|one| - 1].symbol) == Some(t1);
    assert ValueCoin(one[0], t1) == Ok(c1);
    assert [] + [c1] == [c1];
    assert Coins(one, ts) == Ok([c1]);
    assert hs[..|hs| - 1] == hs[..1];
    assert [c1] + [c2] == [c1, c2];
  }

  /** Both example holdings value without error. */
  lemma ExampleCoins(hs: seq<PortfolioItem>, ts: seq<CoinLoreTicker>)
    requires ExampleHoldings(hs) && ExampleTickers(ts)
    ensures ValueCoin(hs[0], ts[0]).Ok? && ValueCoin(hs[1], ts[1]).Ok?
  {
    ExampleQuotes(ts);
    CoinLineOutcome(hs[0], ts[0]);
    CoinLineOutcome(hs[1], ts[1]);
  }

  /** The totals of the two example coin lines. */
  lemma ExampleTotals(c1: CoinResult, c2: CoinResult)
    requires c1.currentPriceUsd == 12000.0 && c1.buyPriceUsd == 10000.0 && c1.amount == 2.0
    requires c2.currentPriceUsd == 2500.0 && c2.buyPriceUsd == 2000.0 && c2.amount == 10.0
    ensures TotalBuy([c1, c2]) == 40000.0
    ensures TotalCurrent([c1, c2]) == 49000.0
  {
    var one := [c1];
    var cs := [c1, c2];
    assert one[..|one| - 1] == [] && one[|one| - 1] == c1;
    assert cs[..|cs| - 1] == one && cs[|cs| - 1] == c2;
    assert Times(c1.buyPriceUsd, c1.amount) == 20000.0 && Times(c2.buyPriceUsd, c2.amount) == 20000.0;
    assert Times(c1.currentPriceUsd, c1.amount) == 24000.0 && Times(c2.currentPriceUsd, c2.amount) == 25000.0;
    assert TotalBuy(one) == 20000.0;
    assert TotalCurrent(one) == 24000.0;
  }

  /** 2 BTC bought at 10000 now at 12000 and 10 ETH bought at 2000 now at 2500 are worth 49000, up 22.5 %. */
  lemma ValuationExample(hs: seq<PortfolioItem>, ts: seq<CoinLoreTicker>)
    requires ExampleHoldings(hs) && ExampleTickers(ts)
    ensures Valuation(hs, ts).Ok?
    ensures |Valuation(hs, ts).value.coins| == 2
    ensures Valuation(hs, ts).value.totalValueUsd == 49000.0
    ensures Valuation(hs, ts).value.totalChangeUsd == 22.5
  {
    ExampleQuotes(ts);
    ExampleMatches(hs, ts);
    ExampleCoins(hs, ts);
    CoinsOfTwo(hs, ts, ts[0], ts[1]);
    CoinLine(hs[0], ts[0]);
    CoinLine(hs[1], ts[1]);
    var c1 := ValueCoin(hs[0], ts[0]).value;
    var c2 := ValueCoin(hs[1], ts[1]).value;
    ExampleTotals(c1, c2);
  }

  /** The items saved after an upload: each coin line as (Symbol, Amount, BuyPriceUsd). */
  function SavedItems(cs: seq<CoinResult>): (r: seq<PortfolioItem>)
    ensures |r| == |cs|
  {
    seq(|cs|, i requires 0 <= i < |cs| => PortfolioItem(cs[i].symbol, cs[i].amount, cs[i].buyPriceUsd))
  }

  /** A holding with its symbol upper-cased. */
  function Upper(h: PortfolioItem): PortfolioItem {
    PortfolioItem(ToUpper(h.symbol), h.amount, h.purchasePriceUsd)
  }

  /** What is saved is exactly the matched holdings, upper-cased, in order: unmatched holdings are dropped from storage. */
  lemma SavedAreMatchedHoldings(hs: seq<PortfolioItem>, ts: seq<CoinLoreTicker>)
    requires Coins(hs, ts).Ok?
    ensures var saved := SavedItems(Coins(hs, ts).value);
            |saved| == |Matched(hs, ts)| &&
            forall k :: 0 <= k < |saved| ==> saved[k] == Upper(Matched(hs, ts)[k])
  {
    CoinsFollowHoldings(hs, ts);
    var m := Matched(hs, ts);
    forall k | 0 <= k < |m|
      ensures SavedItems(Coins(hs, ts).value)[k] == Upper(m[k])
    {
      CoinLine(m[k], FindTicker(ts, m[k].symbol).value);
    }
  }

  // ---------------------------------------------------------------------------
  // The controller
  // ---------------------------------------------------------------------------

  /** The upper-cased symbols of the holdings, in holding order. */
  function UpperSymbols(hs: seq<PortfolioItem>): (r: seq<string>)
    ensures |r| == |hs|
  {
    seq(|hs|, i requires 0 <= i < |hs| => ToUpper(hs[i].symbol))
  }

  /** LINQ's `Distinct`: the first occurrence of every element, in order. */
  function Distinct(xs: seq<string>): (r: seq<string>)
    ensures forall x :: x in r <==> x in xs
    ensures forall i, j :: 0 <= i < j < |r| ==> r[i] != r[j]
    decreases |xs|
  {
    if |xs| == 0 then []
    else
      var d := Distinct(xs[..|xs| - 1]);
      var x := xs[|xs| - 1];
      if x in d then d else d + [x]
  }

  /** The distinct values of a dictionary, in an order the dictionary leaves unspecified. */
  method DistinctValues(m: map<string, string>) returns (ids: seq<string>)
    ensures forall x :: x in ids <==> x in m.Values
    ensures forall i, j :: 0 <= i < j < |ids| ==> ids[i] != ids[j]
  {
    var rest := m.Values;
    ids := [];
    while rest != {}
      invariant rest <= m.Values
      invariant forall x :: x in ids <==> x in m.Values && x !in rest
      invariant forall i, j :: 0 <= i < j < |ids| ==> ids[i] != ids[j]
      decreases |rest|
    {
      var x :| x in rest;
      ids := ids + [x];
      rest := rest - {x};
    }
  }

  /** The controller: the current holdings, the CoinLore ids to quote, the CoinLore client and the store. */
  class PortfolioController {
    var currentPortfolio: seq<PortfolioItem>
    var symbolIds: seq<string>
    const coin: CoinLore.CoinLoreService
    const storage: Storage.FileStorageManager

    /** Creates a store over `file`, loads the cached portfolio, and resolves its symbols. */
    constructor (coin: CoinLore.CoinLoreService, file: Storage.StoredFile, pages: seq<seq<CoinLoreTicker>>)
      modifies coin
      ensures this.coin == coin && fresh(storage)
      ensures storage.file == file && storage.portfolios == Storage.Reloaded([], file)
      ensures currentPortfolio == Storage.CurrentPortfolio([], file).items
      ensures coin.symbolToId == CoinLore.MapSymbols(Distinct(UpperSymbols(currentPortfolio)), pages)
      ensures forall x :: x in symbolIds <==> x in coin.symbolToId.Values
    {
      var store := new Storage.FileStorageManager(file);
      var cached := store.GetPortfolio();
      var m := coin.MapSymbolsToIds(Distinct(UpperSymbols(cached.items)), pages);
      var ids := DistinctValues(m);
      this.coin := coin;
      storage := store;
      currentPortfolio := cached.items;
      symbolIds := ids;
    }

    /** `_calculatePortfolio`: quotes for `symbolIds`, a coin line per holding with a ticker, then the totals. */
    method CalculatePortfolio(fetch: string -> Option<seq<CoinLore.JsonObject>>) returns (r: Result<PortfolioResult, Failure>)
      ensures r == ValuationOf(currentPortfolio, symbolIds, fetch)
    {
      var quotes := coin.GetTickersByIds(symbolIds, fetch);
      if quotes.Err? {
        return Err(BadTicker(quotes.error));
      }
      var tickers := quotes.value;
      var hs := currentPortfolio;
      var coins: seq<CoinResult> := [];
      var i := 0;
      while i < |hs|
        invariant 0 <= i <= |hs|
        invariant Coins(hs[..i], tickers) == Ok(coins)
      {
        assert hs[..i + 1][..i] == hs[..i];
        var ticker := FindTicker(tickers, hs[i].symbol);
        if ticker.Some? {
          var line := ValueCoin(hs[i], ticker.value);
          if line.Err? {
            CoinsFailureSticks(hs, tickers, i + 1);
            return Err(line.error);
          }
          coins := coins + [line.value];
        }
        i := i + 1;
      }
      assert hs[..i] == hs;
      var totalBuy := TotalBuy(coins);
      var totalCurrent := TotalCurrent(coins);
      if totalBuy == 0.0 {
        return Err(DivideByZero);
      }
      var change := ChangePercent(totalCurrent, totalBuy);
      r := Ok(PortfolioResult(coins, 0.0 + totalCurrent, 0.0 + change));
    }

    /** The refresh endpoint: the valuation of the current holdings. */
    method Refresh(fetch: string -> Option<seq<CoinLore.JsonObject>>) returns (response: Response)
      ensures ValuationOf(currentPortfolio, symbolIds, fetch).Ok? ==>
                response == Success(ValuationOf(currentPortfolio, symbolIds, fetch).value)
      ensures ValuationOf(currentPortfolio, symbolIds, fetch).Err? ==>
                response == Failed(ValuationOf(currentPortfolio, symbolIds, fetch).error)
    {
      var result := CalculatePortfolio(fetch);
      if result.Err? {
        return Failed(result.error);
      }
      response := Success(result.value);
    }

    /**
     * The upload endpoint: replaces the holdings with the file's, resolves
     * their symbols, values them, and saves the valued coins as portfolio 0.
     * `file` is the uploaded file's lines, `None` when no file was sent.
     */
    method Upload(file: Option<seq<string>>, pages: seq<seq<CoinLoreTicker>>, fetch: string -> Option<seq<CoinLore.JsonObject>>)
      returns (response: Response)
      modifies this, coin, storage
      ensures file.None? ==> response == BadRequest("No file") && unchanged(this, coin, storage)
      ensures file.Some? ==> currentPortfolio == LoadLines(file.value).items
      ensures file.Some? && LoadLines(file.value).failure.Some? ==>
                response == Failed(LoadLines(file.value).failure.value) &&
                symbolIds == old(symbolIds) && unchanged(coin, storage)
      ensures file.Some? && LoadLines(file.value).failure.None? ==>
                coin.symbolToId == CoinLore.MapSymbols(Distinct(UpperSymbols(currentPortfolio)), pages) &&
                (forall x :: x in symbolIds <==> x in coin.symbolToId.Values) &&
                match ValuationOf(currentPortfolio, symbolIds, fetch)
                case Err(e) => response == Failed(e) && unchanged(storage)
                case Ok(v) =>
                  response == Success(v) &&
                  storage.file == Storage.Document([Portfolio(0, SavedItems(v.coins))]) &&
                  storage.portfolios == old(storage.portfolios)
    {
      if file.None? {
        return BadRequest("No file");
      }
      var lines := file.value;
      currentPortfolio := [];
      var i := 0;
      while i < |lines|
        invariant 0 <= i <= |lines|
        invariant LoadLines(lines[..i]) == Load(currentPortfolio, None)
        invariant unchanged(coin, storage) && symbolIds == old(symbolIds)
      {
        assert lines[..i + 1][..i] == lines[..i];
        var line := Trim(lines[i]);
        if !IsBlank(line) {
          var item := ParseLine(line);
          if item.Err? {
            LoadFailureSticks(lines, i + 1);
            return Failed(item.error);
          }
          currentPortfolio := currentPortfolio + [item.value];
        }
        i := i + 1;
      }
      assert lines[..i] == lines;
      var symbols := Distinct(UpperSymbols(currentPortfolio));
      var m := coin.MapSymbolsToIds(symbols, pages);
      symbolIds := DistinctValues(m);
      var result := CalculatePortfolio(fetch);
      if result.Err? {
        return Failed(result.error);
      }
      storage.Save([Portfolio(0, SavedItems(result.value.coins))]);
      response := Success(result.value);
    }
  }

  /** When the whole loop succeeds, so does every prefix of it. */
  lemma CoinsPrefixOk(hs: seq<PortfolioItem>, ts: seq<CoinLoreTicker>, n: nat)
    requires n <= |hs|
    requires Coins(hs, ts).Ok?
    ensures Coins(hs[..n], ts).Ok?
  {
    if Coins(hs[..n], ts).Err? {
      CoinsFailureSticks(hs, ts, n);
    }
  }

  /** Once the loop has failed on a prefix of the holdings, the whole loop fails with the same error. */
  lemma {:induction false} CoinsFailureSticks(hs: seq<PortfolioItem>, ts: seq<CoinLoreTicker>, n: nat)
    requires n <= |hs|
    requires Coins(hs[..n], ts).Err?
    ensures Coins(hs, ts) == Coins(hs[..n], ts)
    decreases |hs| - n
  {
    if n < |hs| {
      assert hs[..n + 1][..n] == hs[..n];
      CoinsFailureSticks(hs, ts, n + 1);
    } else {
      assert hs[..n] == hs;
    }
  }
}
