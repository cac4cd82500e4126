# Binance alert filter — a Dafny model

This project models the decision logic of the Binance filter of alertbot, a
bot that watches Binance's spot and futures streams and posts alerts to a
chat. The model is a set of pure functions over immutable records. The
filter's state is one `Engine` record. It holds:

- the tracked symbols with their futures flag;
- a bounded price history and an alert state per symbol;
- the futures funding table;
- the channel mute flags and the ignore set;
- the threshold record and the futures prefix filter.

The modelled parts are:

- the ticker classifier (`Ticker.Step`, `Ticker.Classify`): de-duplication by
  whole seconds, recording the snapshot, the liquidity band, debounce, the
  rise, fall and volume gates, the choice of direction and the repeat
  counters;
- the spot and futures trade classifiers and the mark-price store (`Trades`);
- the delivery gate `postMessage` (`Dispatch`);
- the reconciliation of the tracked symbols against the exchange catalogs,
  and the construction of a fresh filter (`Universe`);
- the operator commands of `binance/command.go`: `Commands` and `Ranking`,
  with the threshold table in `Config`;
- the parts of Go's `strings` and `strconv` that the decisions depend on
  (`Text`): `Fields`, ASCII `ToUpper`, `HasPrefix`, `HasSuffix`, `Contains`,
  and base-10 `ParseUint`.

Floats are modelled as `real`, and a parse result as `Option<real>`
(`None` for a parse error). Go's `strconv.ParseFloat` is passed in as a
function `string -> Option<real>`. Go's integer division and float-to-integer
conversion both truncate toward zero, and are written out (`Market.GoDiv`,
`Market.Trunc`). So is the wrap of a `uint64` count into a negative `int`
(`Ranking.ToInt64`).

Where the behaviour is a crash in Go, the model returns `Crash`:

- `Unmute` of a channel that is not in the table dereferences nil;
- a ranking longer than the funding table slices or indexes out of range.

When ALL is on and a channel has no entry in the flag table, Go's
`postMessage` calls `Load` on a nil flag and panics. `Dispatch.PostMessage`
therefore requires the channel to be resolvable: SYSTEM, or ALL present and
either off or the channel present; and `Ticker.AlertChannelResolvable` shows that every ticker
alert meets this when the window's prices are sane.

Some behaviours of the code are easy to miss:

- The repeat counter of an alert grows whenever the previous alert, of
  either direction, is at most two windows back. The alert state records one
  time for both directions.
- When a tick both rose past `up` and fell past `down` (relative to the
  window's low and high), both counters move, but the alert is DOWN's. The
  code tests DOWN after UP and overwrites it.
- Neither rate reaching its threshold while the tick is not quiet (it is
  below the window's low yet at or above its high) gives an alert with no
  direction. Go posts it on channel `""`. `Ticker.DirectionExists` shows this
  cannot happen when `0 < low <= high`.
- A window whose first quote volume is zero is not excluded. Go's float
  division then gives +Inf when the latest volume is positive, NaN when it
  is zero and -Inf when it is negative. +Inf and NaN are not below the volume
  threshold, so the gate passes; -Inf is, so the gate fails. The model states
  this through `Ticker.VolumeHit` (the gate passes exactly when the latest
  volume is not negative), and the alert's volume rate is `None`.

## Model

| member | source | states |
|---|---|---|
| Market.Push | binance/filter.go:183 | After a push the history is non-empty and at most 3600 long. Its newest entry is the pushed snapshot. The entries before it are the newest of the old history, the oldest dropped only when full. |
| Market.PushKeepsOrder | binance/filter.go:164-183 | Pushing a snapshot newer than the latest keeps a history in strictly increasing time order. |
| Market.LaterSecondIsLater | binance/filter.go:164 | A close time in a later whole second (Go's truncating division by 1000) is a later time in milliseconds. |
| Market.GoDivMonotone | binance/filter.go:164 | Go's truncating integer division by a positive divisor is monotone. |
| Market.CompareMeaning | binance/filter.go:432-448 | The window comparator ranks a zero-priced snapshot, or one older than the cutoff, as -1. Between priced snapshots inside the window it answers 1 exactly when the first price is at least the second, and 0 exactly when it is lower. |
| Config.ParseKey | binance/command.go:183-196 | The ten setting names are recognised exactly: a parse yields the setting whose name is the text, and every setting's name parses back to it. |
| Config.Set | binance/command.go:205-266 | Storing a setting changes that setting to its stored form, minutes becoming whole milliseconds for the window, and leaves the other nine as they were. |
| Config.GetDetermines | binance/filter.go:54-87 | The ten settings determine the threshold record, so the frame in `Set` leaves nothing else free. |
| Config.DefaultsAreValid | binance/filter.go:111-120 | Every starting threshold lies in the domain an operator is held to, the window reading as 2 minutes. |
| Config.StoredWindowBounds | binance/command.go:242-246 | An accepted window is stored as 0 to 3600000 milliseconds. |
| Config.TinyWindowStoredAsZero | binance/command.go:242-246 | The lower end is reached: a window of 0.00001 minutes is accepted and truncates to 0 milliseconds, which turns the debounce off. |
| Dispatch.SystemAlwaysDelivered | binance/filter.go:499-503 | SYSTEM messages are always delivered. |
| Dispatch.DeliveredIffBothFlags | binance/filter.go:499-503 | A message on any channel of the table is delivered exactly when the ALL flag and the channel's own flag are both on. |
| Dispatch.TableChannelsResolvable | binance/filter.go:92-101 | With the fixed channel table, every named channel and SYSTEM can be posted to without a nil flag. |
| Ticker.VolumeRate | binance/filter.go:208-210 | The volume growth is undefined exactly when the first volume of the window is zero. Otherwise it is the percentage that, times the first volume, gives the growth. |
| Ticker.Classify | binance/filter.go:185-243 | An alert is emitted exactly when the tick is in the liquidity band, past the debounce window, has non-zero window prices, is not quiet, and passes the volume gate. With no alert the alert state is unchanged. On an alert: the time is recorded, each hit direction's counter becomes old + 1 within two windows or 1 otherwise, and the alert carries DOWN's direction, rate and count if the fall threshold was hit, else UP's. Its price, volumes, symbol and futures flag are those of the tick. |
| Ticker.Step | binance/filter.go:153-256 | An untracked, ignored, same-second or unparsable tick changes nothing. An accepted tick pushes exactly its snapshot onto its own history and classifies against it. Only that symbol's history and alert state change, and the three tracked maps keep one key set. |
| Ticker.StepIgnoresStale | binance/filter.go:156-166 | A tick for an untracked or ignored symbol, or one no newer in whole seconds than the latest snapshot, leaves the filter as it was and raises no alert. |
| Ticker.StepAppendsOne | binance/filter.go:183 | An accepted tick appends one snapshot with its ask price, volumes and close time, dropping the oldest only when the history is full. |
| Ticker.StepKeepsTimeOrder | binance/filter.go:164-183 | The de-duplication by whole seconds keeps every history in strictly increasing time order. |
| Ticker.DirectionExists | binance/filter.go:194-241 | When the window's low price is positive and no higher than its high, every emitted alert is UP or DOWN. |
| Ticker.AlertChannelResolvable | binance/filter.go:253 | Under the same condition, every ticker alert can be handed to the dispatcher. |
| Ticker.DebounceAfterAlert | binance/filter.go:189-191 | After an alert, no tick of the same symbol closing less than one window later alerts. |
| Ticker.RepeatCount | binance/filter.go:219-243 | The emitted direction's count is its old counter + 1 when the last alert, whatever its direction, is at most two windows back, and 1 otherwise. The alert time becomes the tick's close time. |
| Ticker.DownOverridesUp | binance/filter.go:219-241 | When both the rise and the fall pass their thresholds, both counters move and the alert is DOWN's. |
| Ticker.UpAlertExample | binance/filter.go:185-243 | With the default thresholds, a 3% rise on 5% more volume, 90 seconds after the window's low, alerts UP with count 1. |
| Trades.SpotTrade | binance/filter.go:271-315 | A spot trade alerts exactly when the symbol is not ignored, both numbers parse, the latest snapshot has a base volume and an in-band quote volume, and the trade reaches the rate or the value threshold. The alert is SELL when the buyer is the maker, BUY otherwise, and carries the rate, value and futures flag. |
| Trades.FuturesTrade | binance/filter.go:335-381 | A futures trade never alerts for an ignored symbol, a BTC or ETH symbol, or a symbol outside a set prefix filter. Past the band it alerts when a prefix filter is set or the trade reaches the rate or the value threshold, on FSELL for a maker and FBUY otherwise. |
| Trades.FilterReportsEveryMatch | binance/filter.go:367-368 | While a prefix filter is set, every liquid trade on a matching symbol alerts, however small. |
| Trades.SpotTradeExample | binance/filter.go:294-306 | With a 5% rate threshold, a 1% trade worth 500 alerts exactly when the value threshold is at most 500, and then on SELL for a maker buyer. |
| Trades.StoreFunding | binance/filter.go:403-411 | A parsed funding rate is stored as a percentage for its own symbol only. An unparsable one changes nothing. A parsed rate for a symbol with no funding slot is the Go panic (`None`). |
| Universe.AddCatalog | binance/filter.go:472-488 | The spot loop adds exactly the accepted catalog symbols not yet tracked, each with one zero snapshot, zero alert state and a false flag. It keeps every existing entry, and flags an accepted symbol that is on futures. |
| Universe.UpdateData | binance/filter.go:465-494 | The futures tables are rebuilt from the futures catalog with a 3-second interval and a zero rate. Tracked symbols are only added. A symbol's futures flag ends true exactly when it is on the futures catalog and was flagged before or is an accepted spot symbol. |
| Universe.NeverRemoves | binance/filter.go:472-494 | Every tracked symbol stays tracked, and every accepted spot symbol becomes tracked. |
| Universe.FuturesFlag | binance/filter.go:485-494 | An accepted symbol on both catalogs is flagged as futures. A tracked symbol missing from the futures catalog is not. |
| Universe.UpdateDataIdempotent | binance/filter.go:465-494 | Reconciling twice against the same catalogs is the same as reconciling once. |
| Universe.New | binance/filter.go:88-137 | A fresh filter tracks exactly the accepted spot symbols, each with one zero snapshot, zero alert state and a flag telling whether it is on futures. All channels are on, nothing is ignored, no prefix filter is set, and the thresholds are the defaults. The funding table holds exactly the futures catalog, each symbol at rate 0 with a 3-second level. |
| Commands.Ignore | binance/command.go:11-14 | Ignoring adds the upper-cased, USDT-quoted key to the ignore set, changes nothing else, and replies with the key. |
| Commands.Unignore | binance/command.go:17-24 | Unignoring removes that key. It replies "unignored" if the key was there and "not found" otherwise, in which case nothing changes. |
| Commands.IgnoreKeyAndIdempotence | binance/command.go:11-14 | The ignore key ends in USDT whatever the case typed, upper-casing the argument first does not change it, and a second ignore changes nothing. |
| Commands.UnignoreUndoesIgnore | binance/command.go:11-24 | Unignoring right after ignoring removes the key, leaves everything else, and replies "unignored". |
| Commands.Mute | binance/command.go:27-46 | Mute refuses an empty argument or a name whose upper case is not in the channel table (SYSTEM included), changing nothing. Otherwise it turns off exactly that channel's flag. |
| Commands.Unmute | binance/command.go:49-76 | Unmute replies unmuted, wrong format or crash, and refuses exactly anything but one field. ALL turns every flag on. A known channel turns on its own flag and ALL, changing no other flag. An unknown channel crashes. |
| Commands.MuteThenUnmute | binance/command.go:27-76 | A muted channel is not delivered. Unmuting it by the same name delivers it again, even if ALL was off. |
| Commands.UnmuteAllRestoresEverything | binance/command.go:63-68 | Unmuting ALL makes every channel of the table deliverable. |
| Commands.SetFilter | binance/command.go:79-81 | The prefix filter becomes the argument in upper case: the same length with no lower-case ASCII letter left. Nothing else changes. |
| Commands.FilterThenFuturesExcluded | binance/command.go:79-86 | After Filter with a non-empty argument, a symbol other than BTC and ETH ones is excluded from futures reports exactly when it lacks the upper-cased prefix. After Clear, no such symbol is excluded. |
| Commands.Clear | binance/command.go:84-86 | The prefix filter is cleared and nothing else changes. |
| Commands.Price | binance/command.go:89-96 | Price answers the latest price exactly when the upper-cased, USDT-quoted key is tracked, and "not found" otherwise. |
| Commands.PriceAfterTick | binance/command.go:89-96 | After the ticker records a tick, Price for its symbol answers the tick's ask price. |
| Commands.FundingKeyCases | binance/command.go:100-103 | The funding key is the price key when the text as typed has no "USDT". Otherwise it is just the upper-cased text. |
| Commands.FundingKeyLowerTyped | binance/command.go:100-103 | Because the USDT test looks at the text before upper-casing, "btcusdt" looks up "BTCUSDTUSDT". |
| Commands.FundingKeyUpperTyped | binance/command.go:100-103 | "BTCUSDT" looks up "BTCUSDT". |
| Commands.FundingRate | binance/command.go:99-109 | FundingRate answers the stored rate exactly when the funding key has a slot, and "not found" otherwise. |
| Commands.StoreThenFundingRate | binance/filter.go:403-411 | After the mark-price handler stores a parsed rate for a symbol with a slot, FundingRate answers that rate times 100 for the symbol and answers every other symbol as before; an unparsable rate changes no answer. |
| Commands.UpdateConfiguration | binance/command.go:170-266 | A configuration command changes the thresholds only when it is exactly two fields: a setting name, then a number in that setting's domain. Then exactly that setting changes and the reply names it and the value. Any other input is "wrong format" with no change. |
| Commands.UpdateConfigurationTyped | binance/command.go:179-266 | "name value" is accepted exactly when the value parses into the setting's domain. |
| Commands.RejectsOutOfDomain | binance/command.go:242-258 | "window 0", "window 61" and "down 1" are refused with no change. |
| Commands.Refresh | binance/command.go:270-276 | A failed catalog fetch is reported and changes nothing. A successful one tracks the accepted spot symbols, keeps every history and alert state of a tracked symbol, starts new symbols at one zero snapshot and zero alert state, rebuilds the funding table from the futures catalog at rate 0 with 3-second levels, flags a symbol as futures exactly when it is on the futures catalog and was flagged or is an accepted spot symbol, and leaves channels, thresholds, ignores and the prefix filter alone. |
| Commands.GetConfiguration | binance/command.go:279-288 | "config" reports every threshold: the volumes truncated to whole units and the window in minutes. Anything else is "unsupported". |
| Commands.SetThenGet | binance/command.go:170-288 | A setting just accepted is what the configuration report shows, truncated for volumes and windows. |
| Ranking.RankCount | binance/command.go:113-116 | Text that does not parse gives 3. A parsed count below the number of symbols, or of at least 2^63 (negative once converted to `int`), is kept. A parsed count from the number of symbols up to 2^63 gives 3. |
| Ranking.RankCountTyped | binance/command.go:113-116 | A typed count below the number of symbols is used as is. One from there up to 2^63, or text that is not a count, falls back to 3. |
| Ranking.SortedSymbols | binance/command.go:117-124 | Every funding symbol appears once, in non-increasing order of rate. |
| Ranking.InsertKeepsDescending | binance/command.go:122-124 | Inserting a symbol after every symbol with at least its rate keeps the order non-increasing. |
| Ranking.InsertKeepsDistinct | binance/command.go:117-120 | Inserting a new symbol keeps the symbols distinct. |
| Ranking.FundingRateTop | binance/command.go:112-132 | Crashes exactly when the count exceeds the number of symbols. Otherwise it lists that many distinct symbols with their rates, non-increasing, and no symbol left out has a higher rate than any listed one. |
| Ranking.FundingRateBottom | binance/command.go:135-155 | A count of 2^63 or more lists nothing. Otherwise it crashes exactly when the count exceeds the number of symbols, and else lists that many distinct symbols with their rates, non-decreasing, and no symbol left out has a lower rate than any listed one. |
| Text.FieldsOfJoin | binance/command.go:50 | Splitting single-blank-separated words on white space gives the words back. |
| Text.ParseFormatRoundTrip | binance/command.go:113 | Base-10 parsing of a formatted count up to 2^64 - 1 returns it. |

## Left out

- The WebSocket subscriptions, their serve loops, goroutines, stop channels
  and `Restart`. This is concurrency over a foreign library. Each handler
  body is modelled as one call on one event.
- The two REST exchange-information requests of `updateData`. The catalogs
  are inputs, and their failure is `None` in `Commands.Refresh`.
- The bounded list package behind the histories (`NewList`, `Push`, `Back`,
  `MinAndMax`) is not part of this model. The history is a sequence capped at
  3600 whose back is its last element. The window query's answer (lowest,
  highest and first snapshot) is an input to `Ticker.Step`, and nothing is
  claimed about how the query uses `Market.Compare`.
- NaN and infinities from `ParseFloat`. A parse is `Some(real)` or `None`.
  The only infinity modelled is the zero-first-volume division above. `Market.Compare`'s
  zero test is on real products, so float underflow of a product is not modelled.
- `Ticker.Alert`: the message text is not built. The timestamp formatting,
  the `%4.2f` and thousands-grouped numbers and `int(rate+0.5)` in the
  futures message are left out, and the alert is a record.
- `Commands.GetConfiguration`: volumes are truncated with `Trunc`. Go's
  conversion of a float beyond the `int64` range is implementation-defined
  and is not modelled.
- `Text.ToUpper` maps ASCII letters only. Go's Unicode case mapping, which
  can change a string's length, is not modelled.
- Atomics are plain fields. Map iteration order is not modelled: the
  rankings are fixed only up to ties in rate.
- Integer overflow is not modelled: Go's `int64` close times, the two-window
  bound `alert.Time + 2*window` and the `int` repeat counters are unbounded
  integers here. With millisecond timestamps and counters that grow by one
  per alert, the wrap cannot be reached.
- The logger, the location-dependent clock and the printer.
- `main.go` and the Slack and Telegram bots: wiring and thin wrappers over
  their client libraries.
