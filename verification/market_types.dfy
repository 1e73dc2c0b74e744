/** The records exchanged between the feed, the depth ladder, the form and
    the simulation (src/types/market-pilot.ts). */
module MarketTypes {
  import opened Base

  /** One price level of a book side, `[price, quantity]`, both kept as the
      decimal strings the feed sent. */
  datatype Level = Level(price: string, quantity: string)

  /** One L2 snapshot as received from the feed; each side is best price first. */
  datatype RawOrderBook = RawOrderBook(
    timestamp: string,
    exchange: string,
    symbol: string,
    asks: seq<Level>,
    bids: seq<Level>)

  /** The watched form values. A numeric field is `None` when the form holds
      something that is not a number. */
  datatype FormValues = FormValues(
    exchange: string,
    spotAsset: string,
    orderType: string,
    quantity: Option<real>,
    volatility: Option<real>,
    feeRate: Option<real>)

  /** The published simulation output; every field is independently nullable. */
  datatype OutputData = OutputData(
    expectedSlippage: Option<real>,
    expectedFees: Option<real>,
    marketImpact: Option<real>,
    netCost: Option<real>,
    makerProportion: Option<real>,
    takerProportion: Option<real>,
    internalLatency: Option<real>)

  /** One displayed ladder row: the level's strings copied through, plus the
      cumulative quantity. A `None` total is the NaN that an unparseable
      quantity leaves in the running sum. */
  datatype DisplayRow = DisplayRow(price: string, quantity: string, total: Option<real>)

  /** `parseFloat` on a decimal string: `None` when the result is NaN. */
  type Parser = string -> Option<real>

  /** A pair of maker/taker proportions. */
  datatype Proportions = Proportions(maker: real, taker: real)
}
