/** The operator-tunable thresholds of the filter, the ten setting names
    `UpdateConfiguration` accepts and the domain each must respect. */
module Config {
  import opened Wrappers
  import opened Market

  /** All rates and volumes are real numbers; `window` is in milliseconds. */
  datatype Thresholds = Thresholds(
    sRate: real,     // spot trade size, % of the day's base volume
    fRate: real,     // futures trade size, % of the day's base volume
    largeS: real,    // spot trade value in quote currency
    largeF: real,    // futures trade value in quote currency
    up: real,        // % rise over the window
    down: real,      // % fall over the window (negative)
    volume: real,    // % quote-volume growth over the window
    minQuote: real,  // liquidity band, lower end
    maxQuote: real,  // liquidity band, upper end
    window: int)

  /** The values the filter starts with. */
  const Defaults: Thresholds := Thresholds(
    sRate := 5.0, fRate := 10.0,
    largeS := 1_000_000.0, largeF := 2_000_000.0,
    up := 2.0, down := -5.0, volume := 2.0,
    minQuote := 10_000_000.0, maxQuote := 500_000_000.0,
    window := 2 * MilliInMin)

  datatype Setting = SRate | FRate | MinVolume | MaxVolume | SLarge | FLarge | WindowLength | UpRate | DownRate | VolumeRate

  /** The name an operator types for each setting. */
  function KeyName(k: Setting): string {
    match k
    case SRate => "srate"
    case FRate => "frate"
    case MinVolume => "minvolume"
    case MaxVolume => "maxvolume"
    case SLarge => "slarge"
    case FLarge => "flarge"
    case WindowLength => "window"
    case UpRate => "up"
    case DownRate => "down"
    case VolumeRate => "volume"
  }

  /** Looks a typed name up in the table of settings (case-sensitive). */
  function ParseKey(s: string): (r: Option<Setting>)
    ensures r.Some? ==> KeyName(r.value) == s
    ensures forall k :: KeyName(k) == s ==> r == Some(k)
  {
    if s == "srate" then Some(SRate)
    else if s == "frate" then Some(FRate)
    else if s == "minvolume" then Some(MinVolume)
    else if s == "maxvolume" then Some(MaxVolume)
    else if s == "slarge" then Some(SLarge)
    else if s == "flarge" then Some(FLarge)
    else if s == "window" then Some(WindowLength)
    else if s == "up" then Some(UpRate)
    else if s == "down" then Some(DownRate)
    else if s == "volume" then Some(VolumeRate)
    else None
  }

  /** The domain of each setting, as typed: the down rate is negative, the
      window is a number of minutes in (0, 60], everything else is positive. */
  predicate Valid(k: Setting, v: real) {
    match k
    case DownRate => v < 0.0
    case WindowLength => 0.0 < v <= 60.0
    case _ => v > 0.0
  }

  /** The current value of a setting; the window in milliseconds. */
  function Get(th: Thresholds, k: Setting): real {
    match k
    case SRate => th.sRate
    case FRate => th.fRate
    case MinVolume => th.minQuote
    case MaxVolume => th.maxQuote
    case SLarge => th.largeS
    case FLarge => th.largeF
    case WindowLength => th.window as real
    case UpRate => th.up
    case DownRate => th.down
    case VolumeRate => th.volume
  }

  /** The window in minutes, as the operator types and reads it. */
  function WindowMinutes(th: Thresholds): real {
    th.window as real / MilliInMin as real
  }

  /** What is stored for a typed value: minutes become whole milliseconds. */
  function Stored(k: Setting, v: real): real {
    if k == WindowLength then Trunc(v * MilliInMin as real) as real else v
  }

  /** Stores one setting and leaves every other setting as it was. */
  function Set(th: Thresholds, k: Setting, v: real): (r: Thresholds)
    ensures Get(r, k) == Stored(k, v)
    ensures forall k' :: k' != k ==> Get(r, k') == Get(th, k')
  {
    match k
    case SRate => th.(sRate := v)
    case FRate => th.(fRate := v)
    case MinVolume => th.(minQuote := v)
    case MaxVolume => th.(maxQuote := v)
    case SLarge => th.(largeS := v)
    case FLarge => th.(largeF := v)
    case WindowLength => th.(window := Trunc(v * MilliInMin as real))
    case UpRate => th.(up := v)
    case DownRate => th.(down := v)
    case VolumeRate => th.(volume := v)
  }

  /** Two threshold records that agree on every setting are the same record,
      so the frame in Set's contract leaves nothing else free to change. */
  lemma GetDetermines(a: Thresholds, b: Thresholds)
    requires forall k :: Get(a, k) == Get(b, k)
    ensures a == b
  {
    assert Get(a, SRate) == Get(b, SRate) && Get(a, FRate) == Get(b, FRate);
    assert Get(a, MinVolume) == Get(b, MinVolume) && Get(a, MaxVolume) == Get(b, MaxVolume);
    assert Get(a, SLarge) == Get(b, SLarge) && Get(a, FLarge) == Get(b, FLarge);
    assert Get(a, WindowLength) == Get(b, WindowLength) && Get(a, UpRate) == Get(b, UpRate);
    assert Get(a, DownRate) == Get(b, DownRate) && Get(a, VolumeRate) == Get(b, VolumeRate);
  }

  /** Every default lies in the domain the operator would be held to. */
  lemma DefaultsAreValid()
    ensures forall k :: k != WindowLength ==> Valid(k, Get(Defaults, k))
    ensures Valid(WindowLength, WindowMinutes(Defaults))
    ensures WindowMinutes(Defaults) == 2.0
  {
  }

  /** An accepted window is stored as 0 to 3600000 milliseconds. A value
      below 1/60000 of a minute is accepted yet truncates to 0, which turns
      the debounce off. */
  lemma StoredWindowBounds(v: real)
    requires Valid(WindowLength, v)
    ensures 0 <= Trunc(v * MilliInMin as real) <= 60 * MilliInMin
  {
  }

  /** A window of 0.00001 minutes is accepted and stored as 0 milliseconds. */
  lemma TinyWindowStoredAsZero()
    ensures Valid(WindowLength, 0.00001)
    ensures Stored(WindowLength, 0.00001) == 0.0
  {
  }
}
