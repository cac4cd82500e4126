/** The operator commands of binance/command.go as pure functions from the
    filter's state and the command's argument text to a new state and a reply. */
module Commands {
  import opened Wrappers
  import opened Text
  import opened Market
  import opened Config
  import opened Filter
  import opened Dispatch
  import opened Replies
  import opened Universe
  import opened Ticker
  import Trades

  datatype CommandResult = CommandResult(engine: Engine, reply: Reply)

  /** The tracked-symbol key for a base asset as typed: upper-cased, USDT-quoted. */
  function SymbolKey(s: string): string {
    ToUpper(s + "USDT")
  }

  function Ignore(e: Engine, s: string): (r: CommandResult)
    ensures r.engine == e.(ignored := r.engine.ignored)
    ensures r.engine.ignored == e.ignored + {SymbolKey(s)}
    ensures r.reply == IgnoredSymbol(SymbolKey(s))
  {
    CommandResult(e.(ignored := e.ignored + {SymbolKey(s)}), IgnoredSymbol(SymbolKey(s)))
  }

  function Unignore(e: Engine, s: string): (r: CommandResult)
    ensures r.engine == e.(ignored := r.engine.ignored)
    ensures r.engine.ignored == e.ignored - {SymbolKey(s)}
    ensures r.reply == if SymbolKey(s) in e.ignored then UnignoredSymbol(SymbolKey(s)) else SymbolNotFound(SymbolKey(s))
  {
    var key := SymbolKey(s);
    if key in e.ignored then CommandResult(e.(ignored := e.ignored - {key}), UnignoredSymbol(key))
    else CommandResult(e, SymbolNotFound(key))
  }

  /** The ignore key is upper case and USDT-quoted whatever the case typed,
      so ignoring is insensitive to case and a second ignore changes nothing. */
  lemma IgnoreKeyAndIdempotence(e: Engine, s: string)
    ensures HasSuffix(SymbolKey(s), "USDT")
    ensures SymbolKey(ToUpper(s)) == SymbolKey(s)
    ensures Ignore(Ignore(e, s).engine, s).engine == Ignore(e, s).engine
  {
    ToUpperAppend(s, "USDT");
    ToUpperAppend(ToUpper(s), "USDT");
    ToUpperIdempotent(s);
    assert ToUpper("USDT") == "USDT";
    var k := SymbolKey(s);
    assert k[|k| - 4..] == "USDT";
  }

  /** Unignoring right after ignoring leaves the symbol unignored, and every
      other ignored symbol as it was. */
  lemma UnignoreUndoesIgnore(e: Engine, s: string)
    ensures var r := Unignore(Ignore(e, s).engine, s);
            && r.engine.ignored == e.ignored - {SymbolKey(s)}
            && r.engine == e.(ignored := r.engine.ignored)
            && r.reply == UnignoredSymbol(SymbolKey(s))
  {
  }

  /** `Mute`: a non-empty name of a channel in the table (upper-cased) has
      its flag turned off; anything else is refused with no change. SYSTEM
      has no flag, so it cannot be muted. */
  function Mute(e: Engine, s: string): (r: CommandResult)
    ensures r.reply == WrongFormat || r.reply == Muted
    ensures r.reply == WrongFormat <==> s == "" || ToUpper(s) !in e.channel
    ensures r.reply == WrongFormat ==> r.engine == e
    ensures r.reply == Muted ==>
      && r.engine == e.(channel := r.engine.channel)
      && r.engine.channel.Keys == e.channel.Keys
      && !r.engine.channel[ToUpper(s)]
      && forall c :: c in e.channel && c != ToUpper(s) ==> r.engine.channel[c] == e.channel[c]
  {
    if s == "" then CommandResult(e, WrongFormat)
    else
      var channel := ToUpper(s);
      if channel !in e.channel then CommandResult(e, WrongFormat)
      else CommandResult(e.(channel := e.channel[channel := false]), Muted)
  }

  /** `Unmute`: exactly one field is expected. ALL turns every flag on; any
      other channel turns on its own flag and ALL. An unknown channel makes
      the Go code dereference a missing table entry, modelled as `Crash`. */
  function Unmute(e: Engine, content: string): (r: CommandResult)
    requires ALL in e.channel
    ensures r.reply == WrongFormat || r.reply == Crash || r.reply == Unmuted
    ensures r.reply == WrongFormat <==> |Fields(content)| != 1
    ensures r.reply != Unmuted ==> r.engine == e
    ensures r.reply == Crash <==>
      (|Fields(content)| == 1 && ToUpper(Fields(content)[0]) != ALL && ToUpper(Fields(content)[0]) !in e.channel)
    ensures r.reply == Unmuted ==>
      && r.engine == e.(channel := r.engine.channel)
      && r.engine.channel.Keys == e.channel.Keys
      && r.engine.channel[ALL]
      && r.engine.channel[ToUpper(Fields(content)[0])]
      && forall c :: c in e.channel ==>
           r.engine.channel[c] == (e.channel[c] || c == ALL || c == ToUpper(Fields(content)[0])
                                   || ToUpper(Fields(content)[0]) == ALL)
  {
    var fields := Fields(content);
    if |fields| != 1 then CommandResult(e, WrongFormat)
    else
      var channel := ToUpper(fields[0]);
      if channel == ALL then
        CommandResult(e.(channel := map c | c in e.channel :: true), Unmuted)
      else if channel !in e.channel then CommandResult(e, Crash)
      else CommandResult(e.(channel := e.channel[channel := true][ALL := true]), Unmuted)
  }

  /** Muting a channel stops its alerts; unmuting it by the same name brings
      them back, even if ALL had been muted meanwhile. */
  lemma MuteThenUnmute(e: Engine, s: string)
    requires Wf(e)
    requires IsWord(s)
    requires ToUpper(s) in ChannelNames - {ALL}
    ensures var m := Mute(e, s).engine;
            && Wf(m)
            && !PostMessage(m.channel, ToUpper(s))
            && PostMessage(Unmute(m, s).engine.channel, ToUpper(s))
  {
    FieldsOfJoin([s]);
  }

  /** Unmuting ALL turns every channel back on. */
  lemma UnmuteAllRestoresEverything(e: Engine)
    requires Wf(e)
    ensures var r := Unmute(e, "ALL");
            && r.reply == Unmuted
            && forall c :: c in ChannelNames ==> PostMessage(r.engine.channel, c)
  {
    FieldsOfJoin(["ALL"]);
    assert ToUpper("ALL") == ALL;
  }

  /** `Filter` narrows futures reports to one upper-cased symbol prefix. */
  function SetFilter(e: Engine, s: string): (r: CommandResult)
    ensures r.engine == e.(futureFilter := r.engine.futureFilter)
    ensures r.engine.futureFilter == ToUpper(s)
    ensures |r.engine.futureFilter| == |s|
    ensures forall i :: 0 <= i < |s| ==> !IsLowerAscii(r.engine.futureFilter[i])
    ensures r.reply == Silent
  {
    CommandResult(e.(futureFilter := ToUpper(s)), Silent)
  }

  /** `Clear` drops the prefix filter; its argument is ignored. */
  function Clear(e: Engine, s: string): (r: CommandResult)
    ensures r.engine == e.(futureFilter := "")
    ensures r.reply == Silent
  {
    CommandResult(e.(futureFilter := ""), Silent)
  }

  /** After `Filter` with a non-empty argument, a futures symbol other than
      BTC and ETH ones is excluded exactly when it lacks the upper-cased
      prefix; after `Clear`, only BTC and ETH symbols are. */
  lemma FilterThenFuturesExcluded(e: Engine, s: string, c: string, symbol: string)
    requires !HasPrefix(symbol, "BTC") && !HasPrefix(symbol, "ETH")
    ensures s != "" ==>
      (Trades.FuturesExcluded(SetFilter(e, s).engine.futureFilter, symbol) <==> !HasPrefix(symbol, ToUpper(s)))
    ensures !Trades.FuturesExcluded(Clear(e, c).engine.futureFilter, symbol)
  {
    if s != "" {
      assert |ToUpper(s)| == |s|;
    }
  }

  /** `Price`: the latest price of a tracked symbol, by the same key as `Ignore`. */
  function Price(e: Engine, s: string): (r: Reply)
    requires Tracked(e)
    ensures r.PriceIs? <==> SymbolKey(s) in e.market
    ensures r.PriceIs? ==> r.price == Back(e.market[SymbolKey(s)]).price
    ensures !r.PriceIs? ==> r == NotFound
  {
    var symbol := SymbolKey(s);
    if symbol in e.market then PriceIs(Back(e.market[symbol]).price) else NotFound
  }

  /** `Price` reports the ask price of the latest tick the ticker handler
      recorded for the symbol. */
  lemma PriceAfterTick(e: Engine, t: Tick, win: Window, s: string)
    requires Tracked(e)
    requires Accepts(e, t)
    requires t.symbol == SymbolKey(s)
    ensures Price(Step(e, t, win).engine, s) == PriceIs(t.askPrice.value)
  {
  }

  /** The `FundingRate` key: upper-cased, with USDT appended unless the text
      as typed (before upper-casing) already contains "USDT". */
  function FundingKey(s: string): string {
    var symbol := ToUpper(s);
    if !Contains(s, "USDT") then symbol + "USDT" else symbol
  }

  /** Typed without any USDT, the funding key is the same as the price key;
      typed with an upper-case USDT it is just upper-cased. */
  lemma FundingKeyCases(s: string)
    ensures !Contains(s, "USDT") ==> FundingKey(s) == SymbolKey(s)
    ensures Contains(s, "USDT") ==> FundingKey(s) == ToUpper(s)
  {
    ToUpperAppend(s, "USDT");
    assert ToUpper("USDT") == "USDT";
  }

  /** The test for USDT looks at the text as typed: "BTCUSDT" finds the
      BTCUSDT slot ... */
  lemma FundingKeyUpperTyped()
    ensures FundingKey("BTCUSDT") == "BTCUSDT"
  {
    ContainsInfix("BTC", "USDT", "");
    assert "BTC" + "USDT" + "" == "BTCUSDT";
    UpperOfUpperLiteral();
  }

  /** ... while "btcusdt" gets a second USDT and finds nothing. */
  lemma FundingKeyLowerTyped()
    ensures FundingKey("btcusdt") == "BTCUSDTUSDT"
  {
    ContainsNeedsChar("btcusdt", "USDT", 'U');
    UpperOfLowerLiteral();
  }

  lemma UpperOfUpperLiteral()
    ensures ToUpper("BTCUSDT") == "BTCUSDT"
  {
  }

  lemma UpperOfLowerLiteral()
    ensures ToUpper("btcusdt") == "BTCUSDT"
  {
  }

  function FundingRate(e: Engine, s: string): (r: Reply)
    ensures r.FundingRateIs? <==> FundingKey(s) in e.funding
    ensures r.FundingRateIs? ==> r.rate == e.funding[FundingKey(s)]
    ensures !r.FundingRateIs? ==> r == NotFound
  {
    var symbol := FundingKey(s);
    if symbol in e.funding then FundingRateIs(e.funding[symbol]) else NotFound
  }

  /** The mark-price handler feeds the `FundingRate` command: after a parsed
      rate is stored for a symbol, the command answers it as a percentage for
      that symbol and answers every other symbol as before; an unparsable
      rate changes no answer. */
  lemma StoreThenFundingRate(e: Engine, symbol: string, rate: Option<real>, s: string)
    requires symbol in e.funding
    ensures var r := Trades.StoreFunding(e, symbol, rate);
            && r.Some?
            && FundingRate(r.value, s) ==
                 (if rate.Some? && FundingKey(s) == symbol then FundingRateIs(rate.value * 100.0)
                  else FundingRate(e, s))
  {
  }

  /** `UpdateConfiguration`: two fields, a setting name and a number in the
      setting's domain; on success exactly that setting changes. */
  function UpdateConfiguration(e: Engine, settings: string, parseFloat: string -> Option<real>): (r: CommandResult)
    ensures r.reply == WrongFormat || r.reply.ThresholdSet?
    ensures r.reply == WrongFormat ==> r.engine == e
    ensures r.reply.ThresholdSet? ==>
      && |Fields(settings)| == 2
      && KeyName(r.reply.setting) == Fields(settings)[0]
      && parseFloat(Fields(settings)[1]) == Some(r.reply.value)
      && Valid(r.reply.setting, r.reply.value)
      && r.engine == e.(th := r.engine.th)
      && Get(r.engine.th, r.reply.setting) == Stored(r.reply.setting, r.reply.value)
      && forall k :: k != r.reply.setting ==> Get(r.engine.th, k) == Get(e.th, k)
    ensures (|Fields(settings)| == 2 && ParseKey(Fields(settings)[0]).Some?
             && parseFloat(Fields(settings)[1]).Some?
             && Valid(ParseKey(Fields(settings)[0]).value, parseFloat(Fields(settings)[1]).value))
            ==> r.reply.ThresholdSet?
  {
    var s := Fields(settings);
    if |s| != 2 then CommandResult(e, WrongFormat)
    else
      match ParseKey(s[0])
      case None => CommandResult(e, WrongFormat)
      case Some(k) =>
        match parseFloat(s[1])
        case None => CommandResult(e, WrongFormat)
        case Some(v) =>
          var rejected := match k
            case DownRate => v >= 0.0
            case WindowLength => v <= 0.0 || v > 60.0
            case _ => v <= 0.0;
          if rejected then CommandResult(e, WrongFormat)
          else CommandResult(e.(th := Set(e.th, k, v)), ThresholdSet(k, v))
  }

  /** A command typed as "<name> <value>" is accepted exactly when the value
      parses into the setting's domain. */
  lemma UpdateConfigurationTyped(e: Engine, k: Setting, text: string, parseFloat: string -> Option<real>, v: real)
    requires IsWord(text)
    requires parseFloat(text) == Some(v)
    ensures var r := UpdateConfiguration(e, KeyName(k) + " " + text, parseFloat);
            && (Valid(k, v) ==> r.reply == ThresholdSet(k, v) && r.engine == e.(th := Set(e.th, k, v)))
            && (!Valid(k, v) ==> r.reply == WrongFormat && r.engine == e)
  {
    KeyNameIsWord(k);
    FieldsOfJoin([KeyName(k), text]);
    assert JoinSpaced([KeyName(k), text]) == KeyName(k) + " " + text;
  }

  lemma KeyNameIsWord(k: Setting)
    ensures IsWord(KeyName(k))
  {
  }

  /** Out-of-domain values are refused: a zero or 61-minute window, a
      positive down rate. */
  lemma RejectsOutOfDomain(e: Engine, parseFloat: string -> Option<real>)
    requires parseFloat("0") == Some(0.0)
    requires parseFloat("61") == Some(61.0)
    requires parseFloat("1") == Some(1.0)
    ensures UpdateConfiguration(e, "window 0", parseFloat) == CommandResult(e, WrongFormat)
    ensures UpdateConfiguration(e, "window 61", parseFloat) == CommandResult(e, WrongFormat)
    ensures UpdateConfiguration(e, "down 1", parseFloat) == CommandResult(e, WrongFormat)
  {
    UpdateConfigurationTyped(e, WindowLength, "0", parseFloat, 0.0);
    UpdateConfigurationTyped(e, WindowLength, "61", parseFloat, 61.0);
    UpdateConfigurationTyped(e, DownRate, "1", parseFloat, 1.0);
    assert KeyName(WindowLength) + " " + "0" == "window 0";
    assert KeyName(WindowLength) + " " + "61" == "window 61";
    assert KeyName(DownRate) + " " + "1" == "down 1";
  }

  /** The `UpdateData` command: `catalogs` holds the spot and futures
      catalogs the two exchange-information requests return, or `None` when
      either request fails; a failure is reported and changes nothing. */
  function Refresh(e: Engine, catalogs: Option<(seq<string>, seq<string>)>): (r: CommandResult)
    requires Tracked(e)
    ensures r.reply == Failed <==> catalogs.None?
    ensures r.reply == Failed || r.reply == Updated
    ensures r.reply == Failed ==> r.engine == e
    ensures r.reply == Updated ==>
      && Tracked(r.engine)
      && r.engine == e.(symbols := r.engine.symbols, fsymbolLevels := r.engine.fsymbolLevels,
                        market := r.engine.market, funding := r.engine.funding, alert := r.engine.alert)
      && r.engine.market.Keys == e.market.Keys + AcceptedIn(catalogs.value.0)
      && (forall k :: k in e.market ==> r.engine.market[k] == e.market[k] && r.engine.alert[k] == e.alert[k])
      && (forall k :: k in r.engine.market && k !in e.market ==>
            r.engine.market[k] == [ZeroMarketData] && r.engine.alert[k] == ZeroAlertData)
      && (forall k :: k in r.engine.funding <==> k in catalogs.value.1)
      && r.engine.fsymbolLevels.Keys == r.engine.funding.Keys
      && (forall k :: k in r.engine.funding ==>
            r.engine.funding[k] == 0.0 && r.engine.fsymbolLevels[k] == FundingIntervalMs)
      && (forall k :: k in r.engine.symbols ==>
            r.engine.symbols[k] == (k in catalogs.value.1
                                    && ((k in e.symbols && e.symbols[k]) || k in AcceptedIn(catalogs.value.0))))
  {
    match catalogs
    case None => CommandResult(e, Failed)
    case Some((spot, futures)) => CommandResult(UpdateData(e, spot, futures), Updated)
  }

  /** `GetConfiguration`: the current thresholds for "config", the volumes
      truncated to whole units and the window in minutes. */
  function GetConfiguration(e: Engine, setting: string): (r: Reply)
    ensures setting != "config" ==> r == Unsupported
    ensures setting == "config" ==> r.Configuration?
    ensures r.Configuration? ==>
      && r.sRate == Get(e.th, SRate) && r.fRate == Get(e.th, FRate)
      && r.up == Get(e.th, UpRate) && r.down == Get(e.th, DownRate) && r.volume == Get(e.th, VolumeRate)
      && r.minVolume == Trunc(Get(e.th, MinVolume)) && r.maxVolume == Trunc(Get(e.th, MaxVolume))
      && r.sLarge == Trunc(Get(e.th, SLarge)) && r.fLarge == Trunc(Get(e.th, FLarge))
      && r.windowMinutes * MilliInMin as real == Get(e.th, WindowLength)
  {
    if setting != "config" then Unsupported
    else
      Configuration(e.th.sRate, e.th.fRate, Trunc(e.th.minQuote), Trunc(e.th.maxQuote),
                    Trunc(e.th.largeS), Trunc(e.th.largeF), WindowMinutes(e.th),
                    e.th.up, e.th.down, e.th.volume)
  }

  /** A setting just accepted is what the configuration report shows next. */
  lemma SetThenGet(e: Engine, k: Setting, text: string, parseFloat: string -> Option<real>, v: real)
    requires IsWord(text)
    requires parseFloat(text) == Some(v)
    requires Valid(k, v)
    ensures var c := GetConfiguration(UpdateConfiguration(e, KeyName(k) + " " + text, parseFloat).engine, "config");
            match k
            case SRate => c.sRate == v
            case FRate => c.fRate == v
            case UpRate => c.up == v
            case DownRate => c.down == v
            case VolumeRate => c.volume == v
            case MinVolume => c.minVolume == Trunc(v)
            case MaxVolume => c.maxVolume == Trunc(v)
            case SLarge => c.sLarge == Trunc(v)
            case FLarge => c.fLarge == Trunc(v)
            case WindowLength => c.windowMinutes * MilliInMin as real == Trunc(v * MilliInMin as real) as real
  {
    UpdateConfigurationTyped(e, k, text, parseFloat, v);
  }
}
