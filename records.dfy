/** The decoded API records the client works on. The JSON decoding that
    produces them is not part of this model; a response that fails to decode
    leaves its `Data` array empty, which the model takes as an empty sequence. */
module Records {

  /** One entry of the identifier map: `CMarketCapID`. */
  datatype IdRecord = IdRecord(id: int, name: string, symbol: string, slug: string)

  /** The USD quote of a listing: `CMarketUsd`. The figures are float64 in
      the program; here they are exact reals, used only as cell contents. */
  datatype Quote = Quote(
    price: real,
    volume24h: real,
    volumeChange24h: real,
    percentChange1h: real,
    percentChange24h: real,
    percentChange7d: real,
    marketCap: real,
    lastUpdated: string)

  /** One entry of the latest listings: `CMarketListing`. */
  datatype Listing = Listing(
    name: string,
    slug: string,
    id: int,
    symbol: string,
    circulatingSupply: real,
    rank: int,
    quote: Quote)

  /** The zero value of `CMarketListing`, which a failed lookup returns. */
  const ZeroListing: Listing :=
    Listing("", "", 0, "", 0.0, 0, Quote(0.0, 0.0, 0.0, 0.0, 0.0, 0.0, 0.0, ""))
}
