/** The state of one filter instance (BinanceFilter in binance/filter.go)
    as an immutable record, and the invariants every operation keeps. */
module Filter {
  import opened Market
  import opened Config

  /** The channels that carry a mute flag; SYSTEM is not among them. */
  const ChannelNames: set<string> := {UP, DOWN, BUY, SELL, FBUY, FSELL, ALL}

  /** Every channel starts unmuted. */
  const DefaultChannels: map<string, bool> := map c | c in ChannelNames :: true

  /** The filter's state.
      `symbols` maps each tracked symbol to "also listed on futures";
      `fsymbolLevels` holds the futures catalog with each symbol's
      mark-price refresh interval in milliseconds;
      `funding` the last funding rate (in %) of each futures symbol. */
  datatype Engine = Engine(
    symbols: map<string, bool>,
    fsymbolLevels: map<string, int>,
    market: map<string, History>,
    funding: map<string, real>,
    alert: map<string, AlertData>,
    channel: map<string, bool>,
    ignored: set<string>,
    th: Thresholds,
    futureFilter: string)

  /** The tracked symbols have a history, an alert state and a futures flag
      alike, and every history holds between one and 3600 snapshots. */
  predicate Tracked(e: Engine) {
    && e.market.Keys == e.alert.Keys
    && e.market.Keys == e.symbols.Keys
    && forall k :: k in e.market ==> ValidHistory(e.market[k])
  }

  /** Tracked, the channel table is the fixed one, and the funding table
      covers exactly the futures catalog. */
  predicate Wf(e: Engine) {
    && Tracked(e)
    && e.channel.Keys == ChannelNames
    && e.funding.Keys == e.fsymbolLevels.Keys
  }
}
