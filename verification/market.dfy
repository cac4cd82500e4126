/** Snapshots, alert bookkeeping and the bounded per-symbol history of
    binance/filter.go, with the Go integer conversions the filter relies on. */
module Market {

  const MilliInSec: int := 1000
  const MilliInMin: int := MilliInSec * 60

  /** Each history keeps one hour of one-second ticks. */
  const HistoryCapacity: nat := 60 * 60

  // Channel names; SYSTEM is the operator channel and has no flag.
  const UP: string := "UP"
  const DOWN: string := "DOWN"
  const BUY: string := "BUY"
  const SELL: string := "SELL"
  const FBUY: string := "FBUY"
  const FSELL: string := "FSELL"
  const SYSTEM: string := "SYSTEM"
  const ALL: string := "ALL"

  /** One ticker snapshot; `time` is the tick's close time in milliseconds. */
  datatype MarketData = MarketData(price: real, baseVolume: real, quoteVolume: real, time: int)

  /** The placeholder every new history starts with. */
  const ZeroMarketData: MarketData := MarketData(0.0, 0.0, 0.0, 0)

  /** Per-symbol alert state: the last alert's time and the repeat counters. */
  datatype AlertData = AlertData(time: int, upNumber: int, downNumber: int)

  const ZeroAlertData: AlertData := AlertData(0, 0, 0)

  /** Oldest snapshot first, newest last. */
  type History = seq<MarketData>

  predicate ValidHistory(h: History) {
    0 < |h| <= HistoryCapacity
  }

  /** The most recently pushed snapshot. */
  function Back(h: History): MarketData
    requires |h| > 0
  {
    h[|h| - 1]
  }

  /** Appends `x`; a full history first drops its oldest snapshot. */
  function Push(h: History, x: MarketData): (r: History)
    requires |h| <= HistoryCapacity
    ensures ValidHistory(r)
    ensures Back(r) == x
    ensures |r| == if |h| < HistoryCapacity then |h| + 1 else HistoryCapacity
    ensures r[..|r| - 1] == h[|h| - (|r| - 1)..]
  {
    if |h| < HistoryCapacity then h + [x] else h[1..] + [x]
  }

  /** Snapshot times strictly increase from oldest to newest. */
  predicate TimeOrdered(h: History) {
    forall i, j :: 0 <= i < j < |h| ==> h[i].time < h[j].time
  }

  /** Pushing a snapshot newer than the latest keeps the history in time order. */
  lemma PushKeepsOrder(h: History, x: MarketData)
    requires 0 < |h| <= HistoryCapacity
    requires TimeOrdered(h)
    requires Back(h).time < x.time
    ensures TimeOrdered(Push(h, x))
  {
    var r := Push(h, x);
    var d := if |h| < HistoryCapacity then 0 else 1;
    assert r == h[d..] + [x];
    forall i | 0 <= i < |h| ensures h[i].time <= Back(h).time {
      if i < |h| - 1 {
        assert h[i].time < h[|h| - 1].time;
      }
    }
    forall i, j | 0 <= i < j < |r|
      ensures r[i].time < r[j].time
    {
      assert r[i] == h[d + i];
      if j < |r| - 1 {
        assert r[j] == h[d + j];
      }
    }
  }

  /** Go's integer division on `int64`, which truncates toward zero. */
  function GoDiv(a: int, d: int): int
    requires d > 0
  {
    if a >= 0 then a / d else -((-a) / d)
  }

  lemma GoDivMonotone(a: int, b: int, d: int)
    requires d > 0
    requires a <= b
    ensures GoDiv(a, d) <= GoDiv(b, d)
  {
    if 0 <= a {
      DivMonotone(a, b, d);
      assert GoDiv(a, d) == a / d && GoDiv(b, d) == b / d;
    } else if b < 0 {
      DivMonotone(-b, -a, d);
      assert GoDiv(a, d) == -((-a) / d) && GoDiv(b, d) == -((-b) / d);
    } else {
      DivMonotone(0, -a, d);
      DivMonotone(0, b, d);
      assert GoDiv(a, d) == -((-a) / d) && GoDiv(b, d) == b / d;
    }
  }

  lemma DivMonotone(a: nat, b: nat, d: int)
    requires d > 0
    requires a <= b
    ensures 0 <= a / d <= b / d
  {
    var qa, ra := a / d, a % d;
    var qb, rb := b / d, b % d;
    assert a == d * qa + ra && 0 <= ra < d;
    assert b == d * qb + rb && 0 <= rb < d;
    assert d * qa < d * (qb + 1);
    MulCancel(d, qa, qb + 1);
  }

  lemma MulCancel(d: int, x: int, y: int)
    requires d > 0
    requires d * x < d * y
    ensures x < y
  {
    if x >= y {
      MulNonNeg(d, x - y);
    }
  }

  lemma MulNonNeg(a: int, b: int)
    requires a >= 0 && b >= 0
    ensures a * b >= 0
  {
  }

  /** A later whole second means a later time in milliseconds. */
  lemma LaterSecondIsLater(a: int, b: int)
    requires GoDiv(a, MilliInSec) > GoDiv(b, MilliInSec)
    ensures a > b
  {
    if a <= b {
      GoDivMonotone(a, b, MilliInSec);
    }
  }

  /** Go's conversion of a float to an integer, which truncates toward zero. */
  function Trunc(x: real): int {
    if x >= 0.0 then x.Floor else -((-x).Floor)
  }

  /** The comparator the ticker hands to the window query for cutoff `t`. */
  function Compare(t: int, a: MarketData, b: MarketData): int
  {
    if a.price * b.price == 0.0 then -1
    else if a.time < t then -1
    else if a.price >= b.price then 1
    else 0
  }

  /** A zero-price snapshot, or one older than the cutoff, always ranks low;
      between two priced snapshots inside the window the comparator is
      "at least as expensive". */
  lemma CompareMeaning(t: int, a: MarketData, b: MarketData)
    ensures a.price == 0.0 || b.price == 0.0 || a.time < t ==> Compare(t, a, b) == -1
    ensures a.price != 0.0 && b.price != 0.0 && a.time >= t ==>
      (Compare(t, a, b) == 1 <==> a.price >= b.price) && (Compare(t, a, b) == 0 <==> a.price < b.price)
  {
    if a.price != 0.0 && b.price != 0.0 {
      ProductNonZero(a.price, b.price);
    }
  }

  lemma ProductNonZero(x: real, y: real)
    requires x != 0.0 && y != 0.0
    ensures x * y != 0.0
  {
  }
}
