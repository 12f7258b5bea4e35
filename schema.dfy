/** The plain record types shared by server and client. */
module Schema {

  /** One priced instrument as the upstream price list reports it; `sell`
      is the price as text and `lastUpdate` an opaque provider timestamp. */
  datatype PriceItem = PriceItem(title: string, symbol: string, sell: string, lastUpdate: string)

  /** The three buckets the server files a price list into. */
  datatype CategorizedPrices = CategorizedPrices(
    crypto: seq<PriceItem>,
    gold: seq<PriceItem>,
    currencies: seq<PriceItem>)
}
