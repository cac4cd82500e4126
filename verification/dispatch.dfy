/** The delivery gate `postMessage` of binance/filter.go. */
module Dispatch {
  import opened Market
  import opened Filter

  /** The gate can be evaluated: Go reads the flag of channel `c` only when
      `c` is not SYSTEM and ALL is on, and a channel missing from the table
      is a nil pointer there. */
  predicate Resolvable(flags: map<string, bool>, c: string) {
    c == SYSTEM || (ALL in flags && (!flags[ALL] || c in flags))
  }

  /** Whether a message on channel `c` reaches the notification sink. */
  function PostMessage(flags: map<string, bool>, c: string): (delivered: bool)
    requires Resolvable(flags, c)
  {
    c == SYSTEM || (flags[ALL] && flags[c])
  }

  /** Operator replies always go out, whatever is muted. */
  lemma SystemAlwaysDelivered(flags: map<string, bool>)
    ensures PostMessage(flags, SYSTEM)
  {
  }

  /** Any other channel is delivered exactly when both the master flag and
      its own flag are on. */
  lemma DeliveredIffBothFlags(flags: map<string, bool>, c: string)
    requires flags.Keys == ChannelNames
    requires c in ChannelNames
    ensures PostMessage(flags, c) <==> flags[ALL] && flags[c]
  {
    assert c != SYSTEM;
  }

  /** With the fixed channel table every named channel, and SYSTEM, can be
      posted to. */
  lemma TableChannelsResolvable(flags: map<string, bool>, c: string)
    requires flags.Keys == ChannelNames
    requires c in ChannelNames || c == SYSTEM
    ensures Resolvable(flags, c)
  {
  }
}
