/**
 * The shape of a RugCheck token-report response, as far as the bot reads it.
 * Nested objects the bot dereferences are `Option`s (absent or present);
 * lists it indexes are sequences; nullable leaves are `Option<string>`.
 */
module Api {
  import opened Wrappers

  datatype RawToken = RawToken(
    mintAuthority: Option<string>,
    supply: real,
    decimals: int,
    freezeAuthority: Option<string>
  )

  datatype RawTokenMeta = RawTokenMeta(
    name: string,
    symbol: string,
    mutable: bool,
    updateAuthority: Option<string>
  )

  datatype RawFileMeta = RawFileMeta(image: Option<string>)

  /** One entry of `topHolders`: the owner address and its share in percent. */
  datatype RawHolder = RawHolder(owner: string, pct: real)

  datatype RawRisk = RawRisk(name: string, description: string, score: real, level: string)

  datatype RawLp = RawLp(lpLockedPct: real)

  datatype RawMarket = RawMarket(marketType: string, lp: Option<RawLp>)

  /** The body of the report response. */
  datatype RawReport = RawReport(
    mint: string,
    token: Option<RawToken>,
    tokenMeta: Option<RawTokenMeta>,
    topHolders: seq<RawHolder>,
    risks: seq<RawRisk>,
    fileMeta: Option<RawFileMeta>,
    rugged: bool,
    markets: seq<RawMarket>
  )

  /** What the rate-limited GET gives back: a response, or a thrown request error. */
  datatype Fetched = Response(status: int, data: RawReport) | RequestFailed
}
