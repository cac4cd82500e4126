/** The ticker alert path: the body of the all-markets ticker handler in
    binance/filter.go, one tick at a time. */
module Ticker {
  import opened Wrappers
  import opened Market
  import opened Config
  import opened Filter
  import opened Dispatch

  /** One ticker event; the numeric fields are already through
      `strconv.ParseFloat`, `None` standing for a parse error. */
  datatype Tick = Tick(
    symbol: string,
    closeTime: int,
    baseVolume: Option<real>,
    quoteVolume: Option<real>,
    askPrice: Option<real>)

  /** What the window query over the history returns: the lowest-priced and
      highest-priced snapshots of the window, and the first snapshot of it. */
  datatype Window = Window(min: MarketData, max: MarketData, first: MarketData)

  /** `Undirected` is the direction the Go code leaves empty when neither
      rate reaches its threshold. */
  datatype Direction = Up | Down | Undirected

  datatype Alert = Alert(
    direction: Direction,
    count: int,
    symbol: string,
    rate: real,
    price: real,
    volumeRate: Option<real>,
    quoteVolume: real,
    isFutures: bool,
    time: int)

  /** The symbol's alert state after classification and the alert, if any. */
  datatype Verdict = Verdict(state: AlertData, alert: Option<Alert>)

  datatype StepResult = StepResult(engine: Engine, alert: Option<Alert>)

  /** The channel an alert is posted on. */
  function ChannelOf(d: Direction): string {
    match d
    case Up => UP
    case Down => DOWN
    case Undirected => ""
  }

  /** Percentage change of `x` relative to `reference`. */
  function Rate(x: real, reference: real): real
    requires reference != 0.0
  {
    (x - reference) * 100.0 / reference
  }

  predicate InBand(th: Thresholds, quote: real) {
    th.minQuote <= quote <= th.maxQuote
  }

  /** Still inside the window that follows the symbol's last alert. */
  predicate Debounced(ad: AlertData, th: Thresholds, time: int) {
    time < ad.time + th.window
  }

  /** The rise and fall are both short of their thresholds in the way the
      handler tests it. */
  predicate Quiet(th: Thresholds, upRate: real, downRate: real) {
    (0.0 <= upRate && upRate < th.up) || (downRate < 0.0 && downRate > th.down)
  }

  predicate UpHit(th: Thresholds, upRate: real) {
    upRate >= th.up
  }

  predicate DownHit(th: Thresholds, downRate: real) {
    downRate <= th.down
  }

  /** Close enough to the last alert for the repeat counter to grow. */
  predicate Within(ad: AlertData, th: Thresholds, time: int) {
    time <= ad.time + 2 * th.window
  }

  /** Growth of the quote volume from the window's first snapshot, in
      percent. `None` when the first volume is zero: the Go division then
      yields an infinity or NaN. */
  function VolumeRate(latest: real, first: real): (r: Option<real>)
    ensures r.None? <==> first == 0.0
    ensures r.Some? ==> r.value * first == (latest - first) * 100.0
  {
    if first == 0.0 then None else Some(Rate(latest, first))
  }

  /** The volume gate. Against a zero first volume the growth is +Inf (a
      positive latest volume) or NaN (a zero one), and neither is below the
      threshold; only -Inf, from a negative latest volume, is. */
  predicate VolumeHit(th: Thresholds, latest: real, first: real) {
    if first == 0.0 then latest >= 0.0 else Rate(latest, first) >= th.volume
  }

  /** A tick that clears every gate of the classifier. */
  predicate Passes(ad: AlertData, th: Thresholds, latest: MarketData, win: Window) {
    && InBand(th, latest.quoteVolume)
    && !Debounced(ad, th, latest.time)
    && win.min.price != 0.0 && win.max.price != 0.0
    && !Quiet(th, Rate(latest.price, win.min.price), Rate(latest.price, win.max.price))
    && VolumeHit(th, latest.quoteVolume, win.first.quoteVolume)
  }

  /** The classifier, from the liquidity band on, for the snapshot `latest`
      just pushed; `ad` is the symbol's alert state. */
  function Classify(ad: AlertData, th: Thresholds, latest: MarketData, win: Window,
                    symbol: string, isFutures: bool): (r: Verdict)
    ensures r.alert.Some? <==> Passes(ad, th, latest, win)
    ensures r.alert.None? ==> r.state == ad
    ensures r.alert.Some? ==>
      && r.state.time == latest.time
      && r.alert.value.time == latest.time
      && r.alert.value.symbol == symbol
      && r.alert.value.isFutures == isFutures
      && r.alert.value.price == latest.price
      && r.alert.value.quoteVolume == latest.quoteVolume
      && r.alert.value.volumeRate == VolumeRate(latest.quoteVolume, win.first.quoteVolume)
    ensures r.alert.Some? ==> (win.min.price != 0.0 && win.max.price != 0.0 &&
      var up := Rate(latest.price, win.min.price);
      var down := Rate(latest.price, win.max.price);
      var within := Within(ad, th, latest.time);
      && r.state.upNumber == (if UpHit(th, up) then (if within then ad.upNumber + 1 else 1) else ad.upNumber)
      && r.state.downNumber == (if DownHit(th, down) then (if within then ad.downNumber + 1 else 1) else ad.downNumber)
      && (DownHit(th, down) ==>
            r.alert.value.direction == Down && r.alert.value.rate == down && r.alert.value.count == r.state.downNumber)
      && (!DownHit(th, down) && UpHit(th, up) ==>
            r.alert.value.direction == Up && r.alert.value.rate == up && r.alert.value.count == r.state.upNumber)
      && (!DownHit(th, down) && !UpHit(th, up) ==>
            r.alert.value.direction == Undirected && r.alert.value.rate == 0.0 && r.alert.value.count == 0))
  {
    if latest.quoteVolume < th.minQuote || latest.quoteVolume > th.maxQuote then Verdict(ad, None)
    else if latest.time < ad.time + th.window then Verdict(ad, None)
    else if win.min.price == 0.0 || win.max.price == 0.0 then Verdict(ad, None)
    else
      var upRate := (latest.price - win.min.price) * 100.0 / win.min.price;
      var downRate := (latest.price - win.max.price) * 100.0 / win.max.price;
      if (upRate >= 0.0 && upRate < th.up) || (downRate < 0.0 && downRate > th.down) then Verdict(ad, None)
      else
        var first := win.first.quoteVolume;
        var volumeRate := if first == 0.0 then None else Some((latest.quoteVolume - first) * 100.0 / first);
        var belowVolume := if first == 0.0 then latest.quoteVolume < 0.0 else volumeRate.value < th.volume;
        if belowVolume then Verdict(ad, None)
        else
          var repeat := latest.time <= ad.time + 2 * th.window;
          // UP is decided first ...
          var upNumber := if upRate >= th.up then (if repeat then ad.upNumber + 1 else 1) else ad.upNumber;
          var (direction, rate, count) :=
            if upRate >= th.up then (Up, upRate, upNumber) else (Undirected, 0.0, 0);
          // ... and DOWN, when it also qualifies, overwrites it.
          var downNumber := if downRate <= th.down then (if repeat then ad.downNumber + 1 else 1) else ad.downNumber;
          var (direction', rate', count') :=
            if downRate <= th.down then (Down, downRate, downNumber) else (direction, rate, count);
          Verdict(AlertData(latest.time, upNumber, downNumber),
                  Some(Alert(direction', count', symbol, rate', latest.price, volumeRate,
                             latest.quoteVolume, isFutures, latest.time)))
  }

  predicate Parsed(t: Tick) {
    t.baseVolume.Some? && t.quoteVolume.Some? && t.askPrice.Some?
  }

  /** The snapshot a parsed tick becomes. */
  function Snapshot(t: Tick): MarketData
    requires Parsed(t)
  {
    MarketData(t.askPrice.value, t.baseVolume.value, t.quoteVolume.value, t.closeTime)
  }

  /** The tick is recorded: its symbol is tracked and not ignored, it closes
      in a later whole second than the latest snapshot, and it parses. */
  predicate Accepts(e: Engine, t: Tick)
    requires Tracked(e)
  {
    && t.symbol in e.market
    && t.symbol !in e.ignored
    && GoDiv(t.closeTime, MilliInSec) > GoDiv(Back(e.market[t.symbol]).time, MilliInSec)
    && Parsed(t)
  }

  /** One tick through the handler. `win` is the window query's answer for
      cutoff `closeTime - window` over the history after the push. */
  function Step(e: Engine, t: Tick, win: Window): (r: StepResult)
    requires Tracked(e)
    ensures Tracked(r.engine)
    ensures r.engine == e.(market := r.engine.market, alert := r.engine.alert)
    ensures forall k :: k in e.market && k != t.symbol ==>
      r.engine.market[k] == e.market[k] && r.engine.alert[k] == e.alert[k]
    ensures !Accepts(e, t) ==> r.engine == e && r.alert.None?
    ensures Accepts(e, t) ==>
      && r.engine.market[t.symbol] == Push(e.market[t.symbol], Snapshot(t))
      && Verdict(r.engine.alert[t.symbol], r.alert)
         == Classify(e.alert[t.symbol], e.th, Snapshot(t), win, t.symbol, e.symbols[t.symbol])
  {
    if t.symbol !in e.market then StepResult(e, None)
    else if t.symbol in e.ignored then StepResult(e, None)
    else if GoDiv(t.closeTime, MilliInSec) <= GoDiv(Back(e.market[t.symbol]).time, MilliInSec) then StepResult(e, None)
    else if t.baseVolume.None? || t.quoteVolume.None? || t.askPrice.None? then StepResult(e, None)
    else
      var h := Push(e.market[t.symbol], Snapshot(t));
      var e1 := e.(market := e.market[t.symbol := h]);
      // The volume growth is measured up to the snapshot just pushed.
      var latest := Back(h);
      var v := Classify(e.alert[t.symbol], e.th, latest, win, t.symbol, e.symbols[t.symbol]);
      StepResult(e1.(alert := e.alert[t.symbol := v.state]), v.alert)
  }

  /** Ticks for untracked or ignored symbols, and ticks no newer (in whole
      seconds) than the latest snapshot, change nothing. */
  lemma StepIgnoresStale(e: Engine, t: Tick, win: Window)
    requires Tracked(e)
    requires t.symbol !in e.market || t.symbol in e.ignored
             || GoDiv(t.closeTime, MilliInSec) <= GoDiv(Back(e.market[t.symbol]).time, MilliInSec)
    ensures Step(e, t, win) == StepResult(e, None)
  {
  }

  /** An accepted tick appends exactly one snapshot: the history grows by one
      (or stays full), the newest entry is the tick, and the entries before it
      are the newest ones of the old history. */
  lemma StepAppendsOne(e: Engine, t: Tick, win: Window)
    requires Tracked(e)
    requires Accepts(e, t)
    ensures var h := e.market[t.symbol];
            var h' := Step(e, t, win).engine.market[t.symbol];
            && |h'| == (if |h| < HistoryCapacity then |h| + 1 else HistoryCapacity)
            && Back(h') == MarketData(t.askPrice.value, t.baseVolume.value, t.quoteVolume.value, t.closeTime)
            && h'[..|h'| - 1] == h[|h| - (|h'| - 1)..]
  {
  }

  /** Histories stay in strictly increasing time order. */
  lemma StepKeepsTimeOrder(e: Engine, t: Tick, win: Window, k: string)
    requires Tracked(e)
    requires k in e.market && TimeOrdered(e.market[k])
    ensures TimeOrdered(Step(e, t, win).engine.market[k])
  {
    if k == t.symbol && Accepts(e, t) {
      LaterSecondIsLater(t.closeTime, Back(e.market[k]).time);
      PushKeepsOrder(e.market[k], Snapshot(t));
    }
  }

  /** When the window's lowest price is positive and no higher than its
      highest, a tick that clears the gates always gets a direction: it
      either rose by at least `up` or fell by at least `down`. */
  lemma {:induction false} DirectionExists(ad: AlertData, th: Thresholds, latest: MarketData, win: Window,
                                          symbol: string, isFutures: bool)
    requires 0.0 < win.min.price <= win.max.price
    requires Classify(ad, th, latest, win, symbol, isFutures).alert.Some?
    ensures Classify(ad, th, latest, win, symbol, isFutures).alert.value.direction != Undirected
  {
    var m, M, p := win.min.price, win.max.price, latest.price;
    var up, down := Rate(p, m), Rate(p, M);
    if !UpHit(th, up) && !DownHit(th, down) {
      // Neither threshold met, yet not quiet: the price is below the
      // window's minimum and at or above its maximum.
      assert up < 0.0 && down >= 0.0;
      NegativeRateMeansBelow(p, m);
      NonNegativeRateMeansAtLeast(p, M);
    }
  }

  lemma NegativeRateMeansBelow(x: real, reference: real)
    requires reference > 0.0
    requires Rate(x, reference) < 0.0
    ensures x < reference
  {
  }

  lemma NonNegativeRateMeansAtLeast(x: real, reference: real)
    requires reference > 0.0
    requires Rate(x, reference) >= 0.0
    ensures x >= reference
  {
  }

  /** With sane window answers every alert can be handed to the dispatcher:
      its channel is UP or DOWN, both in the channel table. */
  lemma AlertChannelResolvable(e: Engine, t: Tick, win: Window)
    requires Wf(e)
    requires 0.0 < win.min.price <= win.max.price
    requires Step(e, t, win).alert.Some?
    ensures Resolvable(Step(e, t, win).engine.channel, ChannelOf(Step(e, t, win).alert.value.direction))
  {
    DirectionExists(e.alert[t.symbol], e.th, Snapshot(t), win, t.symbol, e.symbols[t.symbol]);
  }

  /** Debounce: once a tick has alerted, no tick of the same symbol closing
      less than one window later alerts. */
  lemma DebounceAfterAlert(e: Engine, t1: Tick, w1: Window, t2: Tick, w2: Window)
    requires Tracked(e)
    requires Step(e, t1, w1).alert.Some?
    requires t2.symbol == t1.symbol
    requires t2.closeTime < t1.closeTime + e.th.window
    ensures Step(Step(e, t1, w1).engine, t2, w2).alert.None?
  {
    var e1 := Step(e, t1, w1).engine;
    assert e1.alert[t1.symbol].time == t1.closeTime;
    if Accepts(e1, t2) {
      assert Debounced(e1.alert[t2.symbol], e1.th, Snapshot(t2).time);
    }
  }

  /** The repeat counter of the emitted direction grows by one when the
      previous alert, in either direction, is at most two windows back, and
      restarts at 1 otherwise. */
  lemma RepeatCount(e: Engine, t: Tick, win: Window)
    requires Tracked(e)
    requires Step(e, t, win).alert.Some?
    requires Step(e, t, win).alert.value.direction != Undirected
    ensures var a := Step(e, t, win).alert.value;
            var old_ := e.alert[t.symbol];
            var n := if a.direction == Up then old_.upNumber else old_.downNumber;
            a.count == (if t.closeTime <= old_.time + 2 * e.th.window then n + 1 else 1)
    ensures Step(e, t, win).engine.alert[t.symbol].time == t.closeTime
  {
    var ad := e.alert[t.symbol];
    assert Accepts(e, t);
    var v := Classify(ad, e.th, Snapshot(t), win, t.symbol, e.symbols[t.symbol]);
    assert Verdict(Step(e, t, win).engine.alert[t.symbol], Step(e, t, win).alert) == v;
    var up := Rate(t.askPrice.value, win.min.price);
    var down := Rate(t.askPrice.value, win.max.price);
    if DownHit(e.th, down) {
      assert v.alert.value.direction == Down && v.alert.value.count == v.state.downNumber;
    } else {
      assert UpHit(e.th, up);
      assert v.alert.value.direction == Up && v.alert.value.count == v.state.upNumber;
    }
  }

  /** When the tick both rose and fell past the thresholds, both counters
      move, but the alert carries the fall: direction, rate and count. */
  lemma DownOverridesUp(ad: AlertData, th: Thresholds, latest: MarketData, win: Window,
                        symbol: string, isFutures: bool)
    requires Passes(ad, th, latest, win)
    requires UpHit(th, Rate(latest.price, win.min.price))
    requires DownHit(th, Rate(latest.price, win.max.price))
    ensures var r := Classify(ad, th, latest, win, symbol, isFutures);
            var within := Within(ad, th, latest.time);
            && r.state.upNumber == (if within then ad.upNumber + 1 else 1)
            && r.state.downNumber == (if within then ad.downNumber + 1 else 1)
            && r.alert.value.direction == Down
            && r.alert.value.rate == Rate(latest.price, win.max.price)
            && r.alert.value.count == r.state.downNumber
  {
  }

  /** An example with the default thresholds (window 2 minutes, up
      2%, volume 2%): the window's low of 100 is 90 seconds old, the tick is
      priced 103 and its quote volume is 5% above the window's first. It
      alerts UP at 3% with repeat count 1. */
  lemma UpAlertExample()
    ensures var th := Defaults;
            var ad := AlertData(0, 0, 0);
            var latest := MarketData(103.0, 1.0, 21_000_000.0, 130_000);
            var win := Window(MarketData(100.0, 1.0, 20_000_000.0, 40_000),
                              MarketData(103.0, 1.0, 21_000_000.0, 130_000),
                              MarketData(100.0, 1.0, 20_000_000.0, 40_000));
            Classify(ad, th, latest, win, "FOOUSDT", false).alert
              == Some(Alert(Up, 1, "FOOUSDT", 3.0, 103.0, Some(5.0), 21_000_000.0, false, 130_000))
  {
  }
}
