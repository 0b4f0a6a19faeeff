# dynamo_coin — a verified model of the portfolio core

This project models the core of dynamo_coin, a crypto-portfolio tracker made of
an ASP.NET backend and a React front end, and proves properties of the model.

Backend:

- **Controller** (`Controllers`, portfolio_controller.dfy): parses an uploaded
  holdings file (`amount|symbol[|purchasePrice]` per line). It resolves the
  symbols to CoinLore ids, values every holding against the current quotes,
  and saves what was valued. The class `PortfolioController` keeps the
  holdings and the ids as fields. `Upload` and `CalculatePortfolio` are loops
  proved against the specification functions `LoadLines`, `Coins` and
  `Valuation`.
- **CoinLore client** (`CoinLore`, coin_lore.dfy): the paging loop that maps
  symbols to ids, and the reading of the quote response. `MapSymbolsToIds` is
  proved equal to a closed form: every requested symbol found in the pages
  the loop reaches, mapped to the id of its first ticker.
- **Portfolio store** (`Storage`, file_storage.dfy): the cache of portfolios
  and the file behind it.
- **Sentiment normaliser** (`Sentiment`, sentiment.dfy): turns the model's
  reply into one of "positive", "negative" or "neutral". It also builds the
  user prompt.

Front end:

- **Portfolio arithmetic** (`MathHelper`, math_helper.dfy): the change label,
  the two totals and the overall change.
- **Logger** (`Logging`, logger.dfy): an entry buffer mirrored into one
  storage item.
- **Redux slice** (`PortfolioSlice`, portfolio_slice.dfy): five fields and
  their five setters.

Shared modules:

- `Text`: trimming, casing, split, join and substring search.
- `Numeric`: the decimal literals that C#'s `decimal.Parse` and JavaScript's
  `parseFloat` read, and the percent-change arithmetic.
- `Js`: JavaScript values and their coercions.
- `Models`: the backend records, including `CoinResult`.
- `Wrappers`: `Option` and `Result`.

C# `decimal` and JavaScript numbers are exact reals. Exceptions are `Err`
values. I/O is a parameter or a field:

- the CoinLore page list is a finite sequence of pages;
- the quote endpoint is a function from URL to JSON array;
- the portfolio file and the browser storage item are fields;
- timestamps are arguments.

Where the code and the documented behaviour differ, the model follows the code:

- A zero buy price, or a valuation with no matched holding, throws
  `DivideByZeroException`. The model returns `Err(DivideByZero)`, not a
  change of 0.
- A third field that is present but empty is rejected by `decimal.Parse`. It
  is not read as 0.
- Negative amounts and empty symbols are accepted.

## Model

| member | source | states |
|---|---|---|
| Text.TrimEmptyIffBlank | dynamo_coin_backend/Controllers/PortfolioController.cs:67-68 | a trimmed line is empty exactly when the line is all white space, so the blank check after `Trim` skips exactly the blank lines |
| Text.TrimIdempotent | dynamo_coin_backend/Controllers/PortfolioController.cs:67 | trimming a trimmed line changes nothing (the symbol trim of `_parseLine` after the line trim) |
| Text.JoinSplit | dynamo_coin_backend/Controllers/PortfolioController.cs:172 | splitting at the field separator loses nothing: joining the pieces with the separator gives back the line |
| Text.SplitJoin | dynamo_coin_backend/Controllers/PortfolioController.cs:172 | splitting a join of separator-free fields gives back exactly the fields, empty ones included |
| Text.ToUpperIdempotent | dynamo_coin_backend/Controllers/PortfolioController.cs:132-133 | upper-casing is idempotent, so comparing upper-cased symbols is stable |
| Text.ToLowerIdempotent | dynamo_coin_backend/Services/OpenAiServiceAlternative.cs:74 | lower-casing a lower-cased reply changes nothing |
| Numeric.ParseDecimalThenParseFloat | dynamo_coin_portfolio/src/utils/mathHelper.js:10-11 | every text `decimal.Parse` accepts is read by `parseFloat` with the same value |
| Numeric.NoDigitNoDecimal | dynamo_coin_backend/Controllers/PortfolioController.cs:175-180 | a text with no digit, the empty text included, is rejected by `decimal.Parse` (FormatException) and is NaN for `parseFloat` |
| Numeric.ParseDecimalLiteral | dynamo_coin_backend/Controllers/PortfolioController.cs:175 | `digits.digits` reads as whole part plus fraction over the power of ten of its length |
| Numeric.ParseDecimalInteger | dynamo_coin_backend/Controllers/PortfolioController.cs:175 | a digit string reads as its value |
| Numeric.ParseDecimalNegative | dynamo_coin_backend/Controllers/PortfolioController.cs:175 | a leading minus negates the value |
| Numeric.ParsesOnePointFive | dynamo_coin_backend.Tests/PortfolioControllerTests.cs:342-347 | "1.5" reads as 1.5 |
| Numeric.ParsesFiftyThousand | dynamo_coin_backend.Tests/PortfolioControllerTests.cs:342-348 | "50000" reads as 50000 |
| Numeric.RejectsWord | dynamo_coin_backend.Tests/PortfolioControllerTests.cs:390-392 | "invalid" is rejected |
| Numeric.ChangeMeaning | dynamo_coin_backend/Controllers/PortfolioController.cs:150 | raising the buy price by the change in percent gives the current price: the meaning of `((price - buy) / buy) * 100` |
| Numeric.ChangeSign | dynamo_coin_portfolio/src/utils/mathHelper.js:3-4 | for a positive buy price the change is positive exactly when the price rose; for a negative one exactly when it fell; equal prices give 0 |
| CoinLore.FirstIdIsFirst | dynamo_coin_backend/Services/CoinLoreService.cs:49-56 | the lookup finds nothing exactly when no ticker has the symbol, and otherwise the id of the earliest ticker with it |
| CoinLore.VisitAfter | dynamo_coin_backend/Services/CoinLoreService.cs:51-55 | one ticker step records the symbol and stops needing it exactly when it is still needed |
| CoinLore.VisitAllAfter | dynamo_coin_backend/Services/CoinLoreService.cs:49-56 | the inner loop over a page gives the state after all tickers seen so far plus the page |
| CoinLore.ResolveAfter | dynamo_coin_backend/Services/CoinLoreService.cs:42-62 | the outer loop stops when nothing is needed, on an empty page or after a short page, with the state after every ticker it reached |
| CoinLore.MapSymbolsFindsFirst | dynamo_coin_backend/Services/CoinLoreService.cs:36-65 | the result maps every upper-cased requested symbol found in the reached pages to the id of its first ticker, and holds no other key; symbols never found are absent |
| CoinLore.StringProperty | dynamo_coin_backend/Services/CoinLoreService.cs:83-88 | a missing property throws; a `null` one takes the fallback; a string is read; any other JSON kind throws |
| CoinLore.ToTickersPrefixError | dynamo_coin_backend/Services/CoinLoreService.cs:79-90 | the first element that cannot be read aborts the whole call with its error |
| CoinLore.ToTickersReadable | dynamo_coin_backend/Services/CoinLoreService.cs:79-90 | the response reads exactly when every element reads |
| CoinLore.ToTickersElementwise | dynamo_coin_backend/Services/CoinLoreService.cs:79-90 | a response that reads gives one ticker per element, in order |
| CoinLore.NullPropertiesDefault | dynamo_coin_backend/Services/CoinLoreService.cs:83-88 | `null` id, symbol and name become "", and `null` price and percentages become "0" |
| CoinLore.TickerUrlCarriesIds | dynamo_coin_backend/Services/CoinLoreService.cs:74-75 | the ids are joined with "," in order: splitting the query value at commas gives them back |
| CoinLore.CoinLoreService.constructor | dynamo_coin_backend/Services/CoinLoreService.cs:21-28 | the symbol map starts empty |
| CoinLore.CoinLoreService.MapSymbolsToIds | dynamo_coin_backend/Services/CoinLoreService.cs:36-65 | the paging loop, with start = 100·k for page k, resets the map field and leaves it equal to the result, which is `MapSymbols` |
| CoinLore.CoinLoreService.GetTickersByIds | dynamo_coin_backend/Services/CoinLoreService.cs:72-92 | the conversion loop returns `TickersByIds`: the quotes of the joined ids, with a `null` body read as an empty array |
| Storage.FirstWithId | dynamo_coin_backend/Utils/FileStorageManager.cs:25 | the position found holds the id and no earlier portfolio does, or there is none |
| Storage.CurrentPortfolio | dynamo_coin_backend/Utils/FileStorageManager.cs:49-60 | a non-empty cache gives its last portfolio without reading the file; an empty cache gives the last stored portfolio, or portfolio 1 with no items |
| Storage.DeleteUndoesAdd | dynamo_coin_backend/Utils/FileStorageManager.cs:17-31 | deleting the id of a portfolio just added, when no earlier one had it, restores the cache |
| Storage.DeleteRemovesOne | dynamo_coin_backend/Utils/FileStorageManager.cs:23-31 | delete is a no-op exactly when no portfolio has the id; otherwise it removes exactly one portfolio with that id and keeps the order of the rest |
| Storage.FileStorageManager.constructor | dynamo_coin_backend/Utils/FileStorageManager.cs:10-15 | the cache starts empty over the given file |
| Storage.FileStorageManager.Add | dynamo_coin_backend/Utils/FileStorageManager.cs:17-21 | appends to the cache; the file is untouched |
| Storage.FileStorageManager.Delete | dynamo_coin_backend/Utils/FileStorageManager.cs:23-31 | removes the first portfolio with the id from the cache; the file is untouched |
| Storage.FileStorageManager.GetAll | dynamo_coin_backend/Utils/FileStorageManager.cs:33-47 | a stored list replaces the cache and is returned; a `null` document returns the cache; no file returns a fresh empty list |
| Storage.FileStorageManager.GetPortfolio | dynamo_coin_backend/Utils/FileStorageManager.cs:49-60 | returns `CurrentPortfolio` of the old cache and file, reloading the cache only when it was empty |
| Storage.FileStorageManager.Save | dynamo_coin_backend/Utils/FileStorageManager.cs:62-66 | writes the list to the file and leaves the cache as it was |
| Controllers.ParseLineFields | dynamo_coin_backend/Controllers/PortfolioController.cs:170-189 | a line of separator-free fields: fewer than two is an invalid line; otherwise the amount comes from field 0, the trimmed symbol (case kept) from field 1, and the price from field 2 or 0; the first number that does not parse is the error; later fields are ignored |
| Controllers.NoSeparatorIsInvalid | dynamo_coin_backend/Controllers/PortfolioController.cs:172-173 | a line without a field separator is rejected as invalid |
| Controllers.ParseLineOfThree | dynamo_coin_backend/Controllers/PortfolioController.cs:175-187 | three fields (amount, symbol, price) read as (trimmed symbol, amount, price), failing on the amount first, then on the price |
| Controllers.ParseLineOfTwo | dynamo_coin_backend/Controllers/PortfolioController.cs:175-187 | two fields (amount, symbol) read as (trimmed symbol, amount, 0) |
| Controllers.EmptyPriceIsRejected | dynamo_coin_backend/Controllers/PortfolioController.cs:178-181 | a third field that is present but empty makes the line fail |
| Controllers.ParsesFullLine | dynamo_coin_backend.Tests/PortfolioControllerTests.cs:342-348 | the line of fields 1.5, BTC, 50000 gives (BTC, 1.5, 50000) |
| Controllers.ParsesShortLine | dynamo_coin_backend.Tests/PortfolioControllerTests.cs:366-372 | the line of fields 2.5, ETH gives (ETH, 2.5, 0) |
| Controllers.RejectsBadAmount | dynamo_coin_backend.Tests/PortfolioControllerTests.cs:390-392 | the line of fields invalid, BTC, 50000 fails on its amount |
| Controllers.LoadParsesNonBlankLines | dynamo_coin_backend/Controllers/PortfolioController.cs:61-73 | reading succeeds exactly when every trimmed non-blank line parses, and then gives one holding per such line, in file order |
| Controllers.LoadStopsAtFirstFailure | dynamo_coin_backend/Controllers/PortfolioController.cs:65-71 | a failing read stopped at a line whose predecessors all parsed; that line's error is reported and the holdings are those before it |
| Controllers.LoadFailureSticks | dynamo_coin_backend/Controllers/PortfolioController.cs:65-71 | after a failing line, later lines change nothing |
| Controllers.BlankLineIgnored | dynamo_coin_backend/Controllers/PortfolioController.cs:67-68 | a blank line contributes nothing |
| Controllers.FindTickerIsFirst | dynamo_coin_backend/Controllers/PortfolioController.cs:133-134 | a holding finds no quote exactly when no ticker has its symbol (compared upper-cased), and otherwise the earliest ticker that has it |
| Controllers.Matched | dynamo_coin_backend/Controllers/PortfolioController.cs:130-134 | every holding that takes part in the valuation has a ticker |
| Controllers.CoinLineOutcome | dynamo_coin_backend/Controllers/PortfolioController.cs:136-152 | a coin line succeeds exactly when the price, the 24h change and the 7d change parse and the buy price is not 0; a bad price is reported first and a zero buy price (division by zero) last |
| Controllers.CoinLine | dynamo_coin_backend/Controllers/PortfolioController.cs:132-151 | a coin line holds the upper-cased symbol, the holding's amount and buy price, the ticker's id, name and parsed figures, value = price × amount, and the change from the buy price to the price |
| Controllers.CoinsSucceed | dynamo_coin_backend/Controllers/PortfolioController.cs:130-153 | the loop succeeds exactly when the coin line of every matched holding does |
| Controllers.CoinsFollowHoldings | dynamo_coin_backend/Controllers/PortfolioController.cs:130-153 | one coin line per matched holding, in holding order, each from the first ticker with its symbol; unmatched holdings are skipped |
| Controllers.CoinsFailureSticks | dynamo_coin_backend/Controllers/PortfolioController.cs:130-153 | the first failing coin line aborts the loop with its error |
| Controllers.CoinsValued | dynamo_coin_backend/Controllers/PortfolioController.cs:146-156 | the sum of the value fields equals Σ current price × amount |
| Controllers.NothingMatchedDividesByZero | dynamo_coin_backend/Controllers/PortfolioController.cs:155-157 | with no matched holding, an empty portfolio included, the overall change divides by zero |
| Controllers.ZeroBuyPriceFails | dynamo_coin_backend/Controllers/PortfolioController.cs:150 | a matched holding bought at 0 makes the valuation fail |
| Controllers.ValuationOutcome | dynamo_coin_backend/Controllers/PortfolioController.cs:155-160 | the valuation succeeds exactly when every coin line does and the buy total is not 0; a zero buy total divides by zero |
| Controllers.ValuationTotals | dynamo_coin_backend/Controllers/PortfolioController.cs:155-162 | a valuation reports the loop's coins, total value = Σ current price × amount, and the change from Σ buy price × amount to that total |
| Controllers.ValuationExample | dynamo_coin_backend.Tests/PortfolioControllerTests.cs:398-457 | 2 BTC bought at 10000 now at 12000 plus 10 ETH bought at 2000 now at 2500: two coins, 49000, up 22.5 % |
| Controllers.SavedAreMatchedHoldings | dynamo_coin_backend/Controllers/PortfolioController.cs:82-92 | what is saved after an upload is exactly the matched holdings, upper-cased, in order |
| Controllers.Distinct | dynamo_coin_backend/Controllers/PortfolioController.cs:77 | the distinct symbols are the same set, with no repeats |
| Controllers.DistinctValues | dynamo_coin_backend/Controllers/PortfolioController.cs:80 | the ids to quote are exactly the map's values, with no repeats |
| Controllers.PortfolioController.constructor | dynamo_coin_backend/Controllers/PortfolioController.cs:20-32 | loads the store's current portfolio, resolves its upper-cased distinct symbols, and keeps the distinct ids |
| Controllers.PortfolioController.CalculatePortfolio | dynamo_coin_backend/Controllers/PortfolioController.cs:123-163 | the coin loop and the totals give `ValuationOf` the holdings and ids, quote errors and division by zero included |
| Controllers.PortfolioController.Refresh | dynamo_coin_backend/Controllers/PortfolioController.cs:39-48 | answers with the valuation, or the exception it raised |
| Controllers.PortfolioController.Upload | dynamo_coin_backend/Controllers/PortfolioController.cs:56-96 | no file is a 400 with nothing changed; otherwise the holdings become what was read; a bad line fails before the ids or the store change; then the ids are resolved and the valuation is answered, with only a successful one saved as portfolio 0 |
| MathHelper.ChangeNotApplicable | dynamo_coin_portfolio/src/utils/mathHelper.js:2 | the label is "N/A" exactly when one of the prices is falsy (undefined, null, false, 0, NaN, "") |
| MathHelper.ChangeOfNumbers | dynamo_coin_portfolio/src/utils/mathHelper.js:1-6 | for two non-zero numbers the label is the sign, the rendered change and "%" |
| MathHelper.GainIsMarkedPlus | dynamo_coin_portfolio/src/utils/mathHelper.js:3-5 | for a positive buy price the label starts with "+ " exactly when the price rose; an unchanged price gives "- ", the rendered 0 and "%" |
| MathHelper.TotalIsSumOfValid | dynamo_coin_portfolio/src/utils/mathHelper.js:8-17 | a total is the sum of amount × price over exactly the assets whose two properties parse; an empty list gives 0 |
| MathHelper.TotalConcat | dynamo_coin_portfolio/src/utils/mathHelper.js:19-28 | the total of two lists one after the other is the sum of their totals |
| MathHelper.AppendAsset | dynamo_coin_portfolio/src/utils/mathHelper.js:12-15 | appending an asset adds its amount × price when both parse, and nothing otherwise |
| MathHelper.OverallChangeMeaning | dynamo_coin_portfolio/src/utils/mathHelper.js:30-37 | a non-array gives 0; an array gives "N/A" exactly when its buy total is 0, and otherwise the change that takes the buy total to the current total |
| MathHelper.TotalWithoutProperty | dynamo_coin_portfolio/src/utils/mathHelper.js:8-17 | assets without the price property total 0 |
| MathHelper.AsWrittenMissesBackendCoins | dynamo_coin_portfolio/src/utils/mathHelper.js:8-37 | as written, assets without `price_current` and `price_buy` total 0 and their overall change is "N/A" |
| MathHelper.SampleCoinsAsWritten | dynamo_coin_portfolio/src/utils/mathHelper.test.js:12-34 | on the test suite's mock assets the as-written totals are 0 and the overall change is "N/A" |
| MathHelper.SampleCoinsCorrected | dynamo_coin_portfolio/src/utils/mathHelper.test.js:531-541 | on the same assets the corrected totals are 28000 and 24400 and the overall change is between 14.75 and 14.76 |
| Logging.EntryTagged | dynamo_coin_portfolio/src/utils/logger.js:43 | every entry carries the tag `[LEVEL]` of its own level |
| Logging.AllLogsLines | dynamo_coin_portfolio/src/utils/logger.js:77-79 | splitting the joined text at line breaks gives back the entries when no entry contains one |
| Logging.LogsByLevel | dynamo_coin_portfolio/src/utils/logger.js:82-84 | the filter keeps only entries that contain the level's tag, and is no longer than the list |
| Logging.LogsByLevelComplete | dynamo_coin_portfolio/src/utils/logger.js:82-84 | no entry that contains the tag is dropped |
| Logging.LogsByLevelConcat | dynamo_coin_portfolio/src/utils/logger.js:82-84 | the filter distributes over concatenation, so it keeps the entries' order |
| Logging.GetStats | dynamo_coin_portfolio/src/utils/logger.js:153-163 | the total is the number of entries and each level's count is the length of that level's filter (so none exceeds the total) |
| Logging.LoggedEntryCounted | dynamo_coin_portfolio/src/utils/logger.js:153-163 | logging an entry adds it at the end of its level's filter and one to the total; each level's count rises by one exactly when the entry carries that level's tag, so logging at INFO, WARN, ERROR or DEBUG raises that level's count by one |
| Logging.LevelCountIsTaggedPositions | dynamo_coin_portfolio/src/utils/logger.js:82-84 | a level's count is the number of positions whose entry contains the level's tag |
| Logging.Logger.constructor | dynamo_coin_portfolio/src/utils/logger.js:2-7 | a new logger has run `init`, so it is ready |
| Logging.Logger.Init | dynamo_coin_portfolio/src/utils/logger.js:10-28 | the entries become the stored ones (or none) plus one INFO "Logger initialized successfully" entry, mirrored to storage; unreadable storage gives no entries and no line |
| Logging.Logger.Log | dynamo_coin_portfolio/src/utils/logger.js:36-57 | a ready logger appends exactly `[ts] [LEVEL] message` and stores the list; a logger that is not ready changes nothing |
| Logging.Logger.Info | dynamo_coin_portfolio/src/utils/logger.js:60-62 | `log` at INFO |
| Logging.Logger.Warn | dynamo_coin_portfolio/src/utils/logger.js:64-66 | `log` at WARN |
| Logging.Logger.Error | dynamo_coin_portfolio/src/utils/logger.js:68-70 | `log` at ERROR |
| Logging.Logger.Debug | dynamo_coin_portfolio/src/utils/logger.js:72-74 | `log` at DEBUG |
| Logging.Logger.ClearLogs | dynamo_coin_portfolio/src/utils/logger.js:87-91 | a ready logger is left with exactly the INFO "Logs cleared" entry; one that is not ready is left empty with the storage item removed |
| Sentiment.Classify | dynamo_coin_backend/Services/OpenAiServiceAlternative.cs:74-86 | the answer is always one of the three words: the normalised reply when it is one, "neutral" otherwise |
| Sentiment.WordsNormalized | dynamo_coin_backend/Services/OpenAiServiceAlternative.cs:163-167 | each of the three words normalises to itself |
| Sentiment.ClassifyStable | dynamo_coin_backend/Services/OpenAiServiceAlternative.cs:74-86 | classifying an answer again gives it back |
| Sentiment.PaddedReply | dynamo_coin_backend/Services/OpenAiServiceAlternative.cs:74-83 | a sentiment word in any casing, with blank padding, is classified as that word |
| Sentiment.BlankReplyIsNeutral | dynamo_coin_backend/Services/OpenAiServiceAlternative.cs:74-86 | a missing or blank reply is "neutral" |
| Sentiment.UserPromptEmbeds | dynamo_coin_backend/Services/OpenAiServiceAlternative.cs:139-160 | the coin, daily analysis, monthly returns and predictions appear verbatim, in that order, each right after its heading |
| PortfolioSlice.StartsFromInitialState | dynamo_coin_portfolio/src/state/redux/portfolioSlice.js:3-13 | an undefined state with an unknown action gives `{portfolio: {}, fileUploaded: false, uploadError: '', refreshRate: 5, analyzingCoin: null}` |
| PortfolioSlice.SetterFrame | dynamo_coin_portfolio/src/state/redux/portfolioSlice.js:15-29 | each setter stores its payload, unchecked, in its own field and leaves the other four; an unknown action changes nothing |
| PortfolioSlice.LastWriteWins | dynamo_coin_portfolio/src/state/redux/portfolioSlice.js:15-29 | of two writes to one field the later wins, so applying a setter twice equals applying it once |
| PortfolioSlice.DifferentFieldsCommute | dynamo_coin_portfolio/src/state/redux/portfolioSlice.js:15-29 | setters of different fields commute |
| PortfolioSlice.ResetRestoresInitialState | dynamo_coin_portfolio/src/state/redux/portfolioSlice.test.js:398-414 | the five-setter reset sequence brings any state back to the initial state |

## Left out

- The network: the HTTP calls of the CoinLore client become parameters. The paged ticker list is a finite sequence of pages, and the quote endpoint is a function from URL to JSON array. `Task.Delay` is left out.
- CoinLore.CoinLoreService.MapSymbolsToIds: the page feed is finite. Against a service that sends full pages forever and never the wanted symbol, the original loop does not end; the model cannot express that.
- A response whose body is not a JSON array, and other deserialisation failures, are not modelled. The quote body is an array of objects or `null`.
- `GetCoinSentimentAsync`, the HTML scraper, the `Analyse` endpoint, `OpenAiService` and the chat call of the alternative service are not modelled: they depend on remote services. The model's reply is a parameter of `Sentiment.Classify`.
- Logging through `ILogger` and the console is left out: it changes no modelled state.
- `decimal.Parse` reads `[ws][sign]digits[.digits][ws]` with at least one digit. Culture settings, thousands separators, exponents, currency symbols, parentheses and trailing signs are not modelled.
- Decimal precision is not modelled: decimal arithmetic is exact real arithmetic, without the 28-digit limit or overflow.
- White space covers the ASCII space and U+0009..U+000D, and casing covers ASCII letters. Other Unicode white space and letters are left as they are.
- JavaScript numbers are exact reals, not IEEE doubles: rounding is not modelled.
- `parseFloat` and `Number(..)` do not read "Infinity", exponents or hexadecimal literals.
- Js.ToNumber: never yields an infinity, since infinite literals are not read; infinities arise only from division by zero in `calculateChange`.
- `toFixed(2)` is a parameter (`fixed2`) of `MathHelper.CalculateChange`: the label's sign, "N/A" and "%" rules are modelled, not the rendering of the digits.
- Arrays passed as asset properties, and asset objects other than plain property maps, are not modelled.
- The controller constructor's `config["OpenAI:ApiKey"]` check and the `OpenAiService` it builds are left out. Both concern only the unmodelled `Analyse` endpoint.
- The order of a dictionary's values (`map.Values.Distinct()`) is unspecified in .NET. `Controllers.DistinctValues` picks an arbitrary order, and its contract holds for every order.
- The aliasing of `_getAllAsync`, which returns the cache list itself, is not modelled: the model returns the cache as a value.
- The aliasing of `_currentPortfolio` with the items of the store's last cached portfolio (PortfolioController.cs:26-27) is not modelled: in C# Upload's `Clear` and `Add` also rewrite that cached portfolio, while the model keeps the store's portfolios unchanged. Nothing reads that cache after construction, so no modelled result differs.
- The portfolio file is what it deserialises to. Reading and writing JSON, file-system errors and the directory creation in the constructor are not modelled.
- `localStorage.setItem` failures are not modelled: the logger swallows them and its entries stay as they are.
- The logger's `downloadLogs` and `exportLogsAsJson` are left out: they build a DOM link and a Blob.
- Logging.Logger.Log and Logging.Logger.constructor: the JavaScript default arguments (level 'INFO', file name 'app.log') are not modelled; every caller passes both.
- Logging.Logger.Init: stored text that does not parse to a list is one `Unreadable` case. This covers a JSON syntax error and a `null` document, whose `length` throws.
- The reducer does not mutate its input: in the model states are values, so this holds by construction and is not stated.
- The Zustand store and the React components are not modelled.

## Findings

| source | as written | input that shows it | evidently intended | confidence | as-written member | corrected member |
|---|---|---|---|---|---|---|
| dynamo_coin_portfolio/src/utils/mathHelper.js:8-28 | the totals read `asset.price_current` and `asset.price_buy`, but the coins the backend sends carry `currentPriceUsd` and `buyPriceUsd` (Models/CoinResult.cs:5-6, read as such by components/PortfolioListItem.js:24 and :30 and fed by mathHelper.test.js:12-34; pages/index.js:141 hands these coins to the two helpers); the totals are always 0 and the overall change always "N/A" | the three mock assets of mathHelper.test.js:12-34 (0.5 BTC at 45000 bought at 40000, 2 ETH at 2500 bought at 2000, 1000 ADA at 0.5 bought at 0.4) | the totals read `currentPriceUsd` and `buyPriceUsd`: 28000 and 24400, overall change ≈ 14.75 % (mathHelper.test.js:539-541) | not executed | MathHelper.SampleCoinsAsWritten | MathHelper.SampleCoinsCorrected |
