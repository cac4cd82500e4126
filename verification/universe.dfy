/** Symbol-universe reconciliation: the part of `updateData` in
    binance/filter.go that runs after the two exchange catalogs are fetched,
    and the construction of a fresh filter. */
module Universe {
  import opened Text
  import opened Market
  import opened Config
  import opened Filter

  /** Mark prices of every futures symbol are refreshed every 3 seconds. */
  const FundingIntervalMs: int := 3 * MilliInSec

  /** The spot symbols the filter tracks: quoted in USDT, but not a USD
      stablecoin pair and not a USD-prefixed base. */
  predicate Accepted(symbol: string) {
    HasSuffix(symbol, "USDT") && !HasSuffix(symbol, "USDUSDT") && !HasPrefix(symbol, "USD")
  }

  /** The symbols of a catalog that pass the filter. */
  function AcceptedIn(catalog: seq<string>): set<string> {
    set k | k in catalog && Accepted(k)
  }

  /** One spot catalog entry: a new accepted symbol gets a one-snapshot zero
      history, a zero alert state and a false futures flag; an accepted
      symbol in the futures catalog is flagged. */
  function AddSpot(e: Engine, symbol: string): (r: Engine)
    requires Tracked(e)
    ensures Tracked(r)
    ensures r == e.(market := r.market, alert := r.alert, symbols := r.symbols)
    ensures r.market.Keys == e.market.Keys + (if Accepted(symbol) then {symbol} else {})
    ensures forall k :: k in e.market ==> r.market[k] == e.market[k] && r.alert[k] == e.alert[k]
    ensures forall k :: k in r.market && k !in e.market ==>
      r.market[k] == [ZeroMarketData] && r.alert[k] == ZeroAlertData
    ensures forall k :: k in r.symbols ==>
      r.symbols[k] == ((k in e.symbols && e.symbols[k]) || (k == symbol && Accepted(symbol) && k in e.fsymbolLevels))
  {
    if !Accepted(symbol) then e
    else
      var e1 :=
        if symbol in e.market then e
        else e.(market := e.market[symbol := [ZeroMarketData]],
                alert := e.alert[symbol := ZeroAlertData],
                symbols := e.symbols[symbol := false]);
      if symbol in e1.fsymbolLevels && !e1.symbols[symbol] then e1.(symbols := e1.symbols[symbol := true])
      else e1
  }

  /** The loop over the spot catalog. */
  function AddCatalog(e: Engine, catalog: seq<string>): (r: Engine)
    requires Tracked(e)
    ensures Tracked(r)
    ensures r == e.(market := r.market, alert := r.alert, symbols := r.symbols)
    ensures r.market.Keys == e.market.Keys + AcceptedIn(catalog)
    ensures forall k :: k in e.market ==> r.market[k] == e.market[k] && r.alert[k] == e.alert[k]
    ensures forall k :: k in r.market && k !in e.market ==>
      r.market[k] == [ZeroMarketData] && r.alert[k] == ZeroAlertData
    ensures forall k :: k in r.symbols ==>
      r.symbols[k] == ((k in e.symbols && e.symbols[k]) || (k in AcceptedIn(catalog) && k in e.fsymbolLevels))
    decreases |catalog|
  {
    if |catalog| == 0 then e
    else
      var e1 := AddSpot(e, catalog[0]);
      var r := AddCatalog(e1, catalog[1..]);
      AcceptedInCons(catalog);
      r
  }

  lemma AcceptedInCons(catalog: seq<string>)
    requires |catalog| > 0
    ensures AcceptedIn(catalog) == (if Accepted(catalog[0]) then {catalog[0]} else {}) + AcceptedIn(catalog[1..])
  {
    assert forall k :: k in catalog <==> k == catalog[0] || k in catalog[1..];
  }

  /** The closing pass: symbols no longer in the futures catalog lose their
      futures flag. */
  function ClearDelisted(e: Engine): Engine {
    e.(symbols := map k | k in e.symbols :: e.symbols[k] && k in e.fsymbolLevels)
  }

  /** Reconciles the filter against the spot and futures catalogs. The
      futures tables are rebuilt from the futures catalog; tracked symbols are
      added, never removed. */
  function UpdateData(e: Engine, spot: seq<string>, futures: seq<string>): (r: Engine)
    requires Tracked(e)
    ensures Tracked(r)
    ensures r == e.(symbols := r.symbols, fsymbolLevels := r.fsymbolLevels, market := r.market,
                    funding := r.funding, alert := r.alert)
    ensures r.fsymbolLevels.Keys == r.funding.Keys
    ensures forall k :: k in r.fsymbolLevels <==> k in futures
    ensures forall k :: k in r.fsymbolLevels ==> r.fsymbolLevels[k] == FundingIntervalMs && r.funding[k] == 0.0
    ensures r.market.Keys == e.market.Keys + AcceptedIn(spot)
    ensures forall k :: k in e.market ==> r.market[k] == e.market[k] && r.alert[k] == e.alert[k]
    ensures forall k :: k in r.market && k !in e.market ==>
      r.market[k] == [ZeroMarketData] && r.alert[k] == ZeroAlertData && r.symbols[k] == (k in futures)
    ensures forall k :: k in r.symbols ==>
      r.symbols[k] == (k in futures && ((k in e.symbols && e.symbols[k]) || k in AcceptedIn(spot)))
  {
    var levels := map k | k in futures :: FundingIntervalMs;
    var funding := map k | k in futures :: 0.0;
    var e1 := e.(fsymbolLevels := levels, funding := funding);
    ClearDelisted(AddCatalog(e1, spot))
  }

  /** Reconciliation never loses a tracked symbol, and every accepted spot
      symbol ends up tracked. */
  lemma NeverRemoves(e: Engine, spot: seq<string>, futures: seq<string>, k: string)
    requires Tracked(e)
    requires k in e.market || (k in spot && Accepted(k))
    ensures k in UpdateData(e, spot, futures).market
  {
  }

  /** An accepted symbol on both catalogs is flagged as futures; a tracked
      symbol missing from the futures catalog is not. */
  lemma FuturesFlag(e: Engine, spot: seq<string>, futures: seq<string>, k: string)
    requires Tracked(e)
    ensures k in spot && Accepted(k) && k in futures ==> UpdateData(e, spot, futures).symbols[k]
    ensures k in UpdateData(e, spot, futures).symbols && k !in futures ==> !UpdateData(e, spot, futures).symbols[k]
  {
  }

  /** Reconciling twice against the same catalogs is the same as once. */
  lemma UpdateDataIdempotent(e: Engine, spot: seq<string>, futures: seq<string>)
    requires Tracked(e)
    ensures UpdateData(UpdateData(e, spot, futures), spot, futures) == UpdateData(e, spot, futures)
  {
    var r1 := UpdateData(e, spot, futures);
    var r2 := UpdateData(r1, spot, futures);
    SecondPassKeepsEntries(r1, r2, spot);
    assert r2.symbols.Keys == r1.symbols.Keys;
    SecondPassKeepsFlags(r1, r2, spot, futures);
    assert r2.fsymbolLevels == r1.fsymbolLevels;
    assert r2.funding == r1.funding;
  }

  /** A pass that adds no key and rewrites no entry leaves the histories and
      alert states as they were. */
  lemma SecondPassKeepsEntries(r1: Engine, r2: Engine, spot: seq<string>)
    requires Tracked(r1) && Tracked(r2)
    requires AcceptedIn(spot) <= r1.market.Keys
    requires r2.market.Keys == r1.market.Keys + AcceptedIn(spot)
    requires forall k :: k in r1.market ==> r2.market[k] == r1.market[k] && r2.alert[k] == r1.alert[k]
    ensures r2.market == r1.market && r2.alert == r1.alert
  {
    assert r2.market.Keys == r1.market.Keys;
  }

  /** Flags already at the reconciliation's fixpoint are left unchanged. */
  lemma SecondPassKeepsFlags(r1: Engine, r2: Engine, spot: seq<string>, futures: seq<string>)
    requires r2.symbols.Keys == r1.symbols.Keys
    requires forall k :: k in r1.symbols ==>
      (r1.symbols[k] <==> k in futures && (r1.symbols[k] || k in AcceptedIn(spot)))
    requires forall k :: k in r2.symbols ==>
      r2.symbols[k] == (k in futures && ((k in r1.symbols && r1.symbols[k]) || k in AcceptedIn(spot)))
    ensures r2.symbols == r1.symbols
  {
    forall k | k in r1.symbols ensures r2.symbols[k] == r1.symbols[k] {
      assert r2.symbols[k] == (k in futures && (r1.symbols[k] || k in AcceptedIn(spot)));
    }
  }

  /** A filter before its first reconciliation: nothing tracked, every
      channel on, default thresholds, no prefix filter. */
  const Empty: Engine := Engine(map[], map[], map[], map[], map[], DefaultChannels, {}, Defaults, "")

  /** `New`: a fresh filter reconciled against the catalogs. */
  function New(spot: seq<string>, futures: seq<string>): (r: Engine)
    ensures Wf(r)
    ensures r.th == Defaults && r.channel == DefaultChannels && r.ignored == {} && r.futureFilter == ""
    ensures r.market.Keys == AcceptedIn(spot)
    ensures forall k :: k in r.market ==>
      r.market[k] == [ZeroMarketData] && r.alert[k] == ZeroAlertData
      && r.symbols[k] == (k in futures)
    ensures forall k :: k in r.funding <==> k in futures
    ensures forall k :: k in r.funding ==> r.funding[k] == 0.0 && r.fsymbolLevels[k] == FundingIntervalMs
  {
    UpdateData(Empty, spot, futures)
  }
}
