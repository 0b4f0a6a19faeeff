/**
 * The records the backend passes between its parts. `CoinResult` mirrors
 * Models/CoinResult.cs field for field; the other shapes follow the way the
 * controller, the storage and the CoinLore client use them. C# `decimal` is
 * modelled as an exact `real`.
 */
module Models {

  /** One holding of an uploaded or stored portfolio. */
  datatype PortfolioItem = PortfolioItem(symbol: string, amount: real, purchasePriceUsd: real)

  /** A stored portfolio: an id and its holdings. */
  datatype Portfolio = Portfolio(id: int, items: seq<PortfolioItem>)

  /** A CoinLore quote; prices and percentages stay text until the controller parses them. */
  datatype CoinLoreTicker = CoinLoreTicker(
    id: string,
    symbol: string,
    name: string,
    priceUsd: string,
    percentChange24h: string,
    percentChange7d: string)

  /** One valued holding. */
  datatype CoinResult = CoinResult(
    symbol: string,
    id: string,
    currentPriceUsd: real,
    buyPriceUsd: real,
    amount: real,
    valueUsd: real,
    changePercent24h: real,
    changePercent7d: real,
    changePercentTotal: real,
    name: string)

  /** The valuation of a whole portfolio: its coins, its value and its overall change in percent. */
  datatype PortfolioResult = PortfolioResult(coins: seq<CoinResult>, totalValueUsd: real, totalChangeUsd: real)
}
