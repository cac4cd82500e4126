/** The spot and futures trade handlers and the mark-price store of
    binance/filter.go. */
module Trades {
  import opened Wrappers
  import opened Text
  import opened Market
  import opened Config
  import opened Filter

  /** One trade event; quantity and price already through
      `strconv.ParseFloat`. `maker` is the spot "buyer is maker" flag or the
      futures aggregated trade's maker flag. */
  datatype Trade = Trade(symbol: string, quantity: Option<real>, price: Option<real>, maker: bool)

  /** A large or fast trade: `rate` is the quantity as a percentage of the
      latest snapshot's base volume, `value` the quantity times the price. */
  datatype TradeAlert = TradeAlert(channel: string, symbol: string, rate: real, price: real,
                                   value: real, quantity: real)

  /** A spot alert also tells whether the symbol is listed on futures. */
  datatype SpotAlert = SpotAlert(trade: TradeAlert, isFutures: bool)

  predicate Parsed(t: Trade) {
    t.quantity.Some? && t.price.Some?
  }

  /** The latest snapshot has a base volume to divide by and a quote volume
      inside the liquidity band. */
  predicate Liquid(th: Thresholds, m: MarketData) {
    m.baseVolume != 0.0 && th.minQuote <= m.quoteVolume && m.quoteVolume <= th.maxQuote
  }

  function TradeRate(quantity: real, baseVolume: real): real
    requires baseVolume != 0.0
  {
    quantity * 100.0 / baseVolume
  }

  /** The spot stream is subscribed for tracked symbols only: a trade that
      gets as far as the history lookup has one. */
  predicate SpotReady(e: Engine, t: Trade) {
    Tracked(e) && (t.symbol !in e.ignored && Parsed(t) ==> t.symbol in e.market)
  }

  function SpotTrade(e: Engine, t: Trade): (r: Option<SpotAlert>)
    requires SpotReady(e, t)
    ensures r.Some? ==>
      && t.symbol !in e.ignored
      && t.symbol in e.market
      && t.quantity == Some(r.value.trade.quantity)
      && t.price == Some(r.value.trade.price)
      && Liquid(e.th, Back(e.market[t.symbol]))
      && r.value.trade.rate * Back(e.market[t.symbol]).baseVolume == r.value.trade.quantity * 100.0
      && r.value.trade.value == r.value.trade.quantity * r.value.trade.price
      && (r.value.trade.rate >= e.th.sRate || r.value.trade.value >= e.th.largeS)
      && r.value.trade.channel == (if t.maker then SELL else BUY)
      && r.value.trade.symbol == t.symbol
      && r.value.isFutures == e.symbols[t.symbol]
    ensures t.symbol !in e.ignored && Parsed(t) && Liquid(e.th, Back(e.market[t.symbol]))
            && (TradeRate(t.quantity.value, Back(e.market[t.symbol]).baseVolume) >= e.th.sRate
                || t.quantity.value * t.price.value >= e.th.largeS)
            ==> r.Some?
  {
    if t.symbol in e.ignored then None
    else if t.quantity.None? || t.price.None? then None
    else
      var quantity, price := t.quantity.value, t.price.value;
      var m := Back(e.market[t.symbol]);
      if m.baseVolume == 0.0 || m.quoteVolume < e.th.minQuote || m.quoteVolume > e.th.maxQuote then None
      else
        var rate := quantity * 100.0 / m.baseVolume;
        var value := quantity * price;
        if rate >= e.th.sRate || value >= e.th.largeS then
          var channel := if t.maker then SELL else BUY;
          Some(SpotAlert(TradeAlert(channel, t.symbol, rate, price, value, quantity), e.symbols[t.symbol]))
        else None
  }

  /** Symbols the futures handler never reports: BTC and ETH pairs, and,
      while a prefix filter is set, every symbol outside it. */
  predicate FuturesExcluded(filter: string, symbol: string) {
    HasPrefix(symbol, "BTC") || HasPrefix(symbol, "ETH") || (filter != "" && !HasPrefix(symbol, filter))
  }

  predicate FuturesReady(e: Engine, t: Trade) {
    Tracked(e) && (t.symbol !in e.ignored && !FuturesExcluded(e.futureFilter, t.symbol) && Parsed(t)
                   ==> t.symbol in e.market)
  }

  function FuturesTrade(e: Engine, t: Trade): (r: Option<TradeAlert>)
    requires FuturesReady(e, t)
    ensures t.symbol in e.ignored || FuturesExcluded(e.futureFilter, t.symbol) ==> r.None?
    ensures r.Some? ==>
      && t.symbol in e.market
      && t.quantity == Some(r.value.quantity)
      && t.price == Some(r.value.price)
      && Liquid(e.th, Back(e.market[t.symbol]))
      && r.value.rate * Back(e.market[t.symbol]).baseVolume == r.value.quantity * 100.0
      && r.value.value == r.value.quantity * r.value.price
      && (e.futureFilter != "" || r.value.rate >= e.th.fRate || r.value.value >= e.th.largeF)
      && r.value.channel == (if t.maker then FSELL else FBUY)
      && r.value.symbol == t.symbol
    ensures t.symbol !in e.ignored && !FuturesExcluded(e.futureFilter, t.symbol) && Parsed(t)
            && Liquid(e.th, Back(e.market[t.symbol]))
            && (e.futureFilter != ""
                || TradeRate(t.quantity.value, Back(e.market[t.symbol]).baseVolume) >= e.th.fRate
                || t.quantity.value * t.price.value >= e.th.largeF)
            ==> r.Some?
  {
    if t.symbol in e.ignored then None
    else if HasPrefix(t.symbol, "BTC") || HasPrefix(t.symbol, "ETH") then None
    else if e.futureFilter != "" && !HasPrefix(t.symbol, e.futureFilter) then None
    else if t.quantity.None? || t.price.None? then None
    else
      var quantity, price := t.quantity.value, t.price.value;
      var m := Back(e.market[t.symbol]);
      if m.baseVolume == 0.0 || m.quoteVolume < e.th.minQuote || m.quoteVolume > e.th.maxQuote then None
      else
        var rate := quantity * 100.0 / m.baseVolume;
        var value := quantity * price;
        if e.futureFilter != "" || ((e.futureFilter == "" && rate >= e.th.fRate) || value >= e.th.largeF) then
          var channel := if t.maker then FSELL else FBUY;
          Some(TradeAlert(channel, t.symbol, rate, price, value, quantity))
        else None
  }

  /** While a prefix filter is set, every liquid trade on a matching symbol
      is reported, however small. */
  lemma FilterReportsEveryMatch(e: Engine, t: Trade)
    requires FuturesReady(e, t)
    requires e.futureFilter != ""
    requires t.symbol !in e.ignored && !FuturesExcluded(e.futureFilter, t.symbol) && Parsed(t)
    requires Liquid(e.th, Back(e.market[t.symbol]))
    ensures FuturesTrade(e, t).Some?
  {
  }

  /** An example: 10 units at 50 against a base volume of 1000 is a
      1% trade worth 500; with a 5% rate threshold it alerts exactly when the
      value threshold is at most 500, and then on SELL when the buyer is the
      maker, with rate 1. */
  lemma SpotTradeExample(e: Engine)
    requires Tracked(e)
    requires "FOOUSDT" in e.market && "FOOUSDT" !in e.ignored
    requires Back(e.market["FOOUSDT"]) == MarketData(1.0, 1000.0, 20_000_000.0, 0)
    requires e.th.minQuote <= 20_000_000.0 <= e.th.maxQuote
    requires e.th.sRate == 5.0
    ensures var t := Trade("FOOUSDT", Some(10.0), Some(50.0), true);
            && (SpotTrade(e, t).Some? <==> e.th.largeS <= 500.0)
            && (SpotTrade(e, t).Some? ==>
                  SpotTrade(e, t).value.trade.channel == SELL
                  && SpotTrade(e, t).value.trade.rate == 1.0
                  && SpotTrade(e, t).value.trade.value == 500.0)
  {
  }

  /** The mark-price handler: a parsed funding rate is stored as a
      percentage; an unparsable one changes nothing. `None` is the Go panic
      on a parsed event for a symbol with no funding slot: the subscription
      is fixed when the stream starts, while a later reconciliation rebuilds
      the funding table, so a delisted symbol can still arrive. */
  function StoreFunding(e: Engine, symbol: string, rate: Option<real>): (r: Option<Engine>)
    ensures r.None? <==> rate.Some? && symbol !in e.funding
    ensures rate.None? ==> r == Some(e)
    ensures rate.Some? && r.Some? ==>
      && r.value == e.(funding := r.value.funding)
      && r.value.funding.Keys == e.funding.Keys
      && r.value.funding[symbol] == rate.value * 100.0
      && forall k :: k in e.funding && k != symbol ==> r.value.funding[k] == e.funding[k]
  {
    if rate.None? then Some(e)
    else if symbol !in e.funding then None
    else Some(e.(funding := e.funding[symbol := rate.value * 100.0]))
  }
}
