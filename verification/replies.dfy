/** What an operator command answers on the SYSTEM channel, as data rather
    than formatted text. */
module Replies {
  import opened Config

  /** One line of a funding-rate ranking. */
  datatype Entry = Entry(symbol: string, rate: real)

  datatype Reply =
    | Silent                                  // the command posts nothing
    | WrongFormat
    | Muted
    | Unmuted
    | IgnoredSymbol(symbol: string)           // "<symbol> ignored"
    | UnignoredSymbol(symbol: string)         // "<symbol> unignored"
    | SymbolNotFound(symbol: string)          // "<symbol> not found"
    | NotFound
    | PriceIs(price: real)
    | FundingRateIs(rate: real)
    | Ranking(entries: seq<Entry>)
    | ThresholdSet(setting: Setting, value: real)
    | Configuration(sRate: real, fRate: real, minVolume: int, maxVolume: int,
                    sLarge: int, fLarge: int, windowMinutes: real,
                    up: real, down: real, volume: real)
    | Unsupported
    | Updated
    | Failed
    | Crash                                   // the Go code panics here
}
