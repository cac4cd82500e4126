/** The funding-rate rankings `FundingRateTop` and `FundingRateBottom` of
    binance/command.go. Go collects the symbols in map-iteration order and
    stable-sorts them by descending rate; the model picks symbols in an
    arbitrary order as well, so its ranking is fixed only up to ties. */
module Ranking {
  import opened Wrappers
  import opened Text
  import opened Replies

  predicate InTable(f: map<string, real>, xs: seq<string>) {
    forall i :: 0 <= i < |xs| ==> xs[i] in f
  }

  /** Rates never increase along `xs`. */
  predicate Descending(f: map<string, real>, xs: seq<string>)
    requires InTable(f, xs)
  {
    forall i, j :: 0 <= i < j < |xs| ==> f[xs[i]] >= f[xs[j]]
  }

  predicate Distinct(xs: seq<string>) {
    forall i, j :: 0 <= i < j < |xs| ==> xs[i] != xs[j]
  }

  /** One step of a stable sort by descending rate: `x`, the latest symbol
      met, goes after every symbol whose rate is at least its own. */
  function Insert(f: map<string, real>, xs: seq<string>, x: string): (ys: seq<string>)
    requires x in f && InTable(f, xs)
    ensures |ys| == |xs| + 1
    ensures forall y :: y in ys <==> y == x || y in xs
    ensures InTable(f, ys)
    decreases |xs|
  {
    if |xs| == 0 then [x]
    else if f[xs[0]] < f[x] then [x] + xs
    else [xs[0]] + Insert(f, xs[1..], x)
  }

  lemma {:induction false} InsertKeepsDescending(f: map<string, real>, xs: seq<string>, x: string)
    requires x in f && InTable(f, xs) && Descending(f, xs)
    ensures Descending(f, Insert(f, xs, x))
    decreases |xs|
  {
    if |xs| > 0 && f[xs[0]] >= f[x] {
      var rest := Insert(f, xs[1..], x);
      InsertKeepsDescending(f, xs[1..], x);
      assert forall m :: 1 <= m < |xs| ==> f[xs[0]] >= f[xs[m]];
      assert forall y :: y in xs[1..] ==> y in xs;
      assert forall y :: y in rest ==> f[xs[0]] >= f[y];
      var ys := [xs[0]] + rest;
      forall i, j | 0 <= i < j < |ys| ensures f[ys[i]] >= f[ys[j]] {
        assert ys[j] == rest[j - 1];
        if i > 0 {
          assert ys[i] == rest[i - 1];
        }
      }
    }
  }

  lemma {:induction false} InsertKeepsDistinct(f: map<string, real>, xs: seq<string>, x: string)
    requires x in f && InTable(f, xs) && Distinct(xs) && x !in xs
    ensures Distinct(Insert(f, xs, x))
    decreases |xs|
  {
    if |xs| > 0 && f[xs[0]] >= f[x] {
      var rest := Insert(f, xs[1..], x);
      assert xs == [xs[0]] + xs[1..];
      InsertKeepsDistinct(f, xs[1..], x);
      assert xs[0] !in rest;
      var ys := [xs[0]] + rest;
      forall i, j | 0 <= i < j < |ys| ensures ys[i] != ys[j] {
        assert ys[j] == rest[j - 1];
        if i > 0 {
          assert ys[i] == rest[i - 1];
        }
      }
    }
  }

  /** Every symbol of the table once, by descending rate. */
  method SortedSymbols(f: map<string, real>) returns (xs: seq<string>)
    ensures |xs| == |f.Keys|
    ensures InTable(f, xs) && Descending(f, xs) && Distinct(xs)
    ensures forall k :: k in f ==> k in xs
  {
    xs := [];
    var rest := f.Keys;
    while rest != {}
      invariant rest <= f.Keys
      invariant InTable(f, xs) && Descending(f, xs) && Distinct(xs)
      invariant forall y :: y in xs <==> y in f.Keys - rest
      invariant |xs| + |rest| == |f.Keys|
      decreases |rest|
    {
      var k :| k in rest;
      InsertKeepsDescending(f, xs, k);
      InsertKeepsDistinct(f, xs, k);
      xs := Insert(f, xs, k);
      rest := rest - {k};
    }
  }

  const TwoTo63: nat := 0x8000_0000_0000_0000

  /** Go's `int(u)` for a `uint64` on a 64-bit platform: wraps to negative
      from 2^63 on. */
  function ToInt64(u: nat): int
    requires u <= MaxUint64
  {
    if u < TwoTo63 then u else u - (MaxUint64 + 1)
  }

  /** How many symbols to list: the parsed count, or 3 when it does not parse
      or is not below the number of symbols. A count of 2^63 or more wraps to
      a negative `int` and slips past the test. */
  function RankCount(s: string, n: nat): (c: nat)
    ensures c == 3 || (ParseUint(s) == Some(c) && (c < n || c >= TwoTo63))
    ensures ParseUint(s).None? ==> c == 3
    ensures ParseUint(s).Some? && (ParseUint(s).value < n || ParseUint(s).value >= TwoTo63) ==>
      c == ParseUint(s).value
    ensures ParseUint(s).Some? && n <= ParseUint(s).value < TwoTo63 ==> c == 3
  {
    match ParseUint(s)
    case None => 3
    case Some(u) => if ToInt64(u) >= n then 3 else u
  }

  /** A count typed below the number of symbols is taken as is; one at or
      above it (but below 2^63), or text that is not a count, falls back to 3. */
  lemma RankCountTyped(c: nat, n: nat, s: string)
    ensures c < n && c <= MaxUint64 ==> RankCount(FormatUint(c), n) == c
    ensures n <= c < TwoTo63 ==> RankCount(FormatUint(c), n) == 3
    ensures ParseUint(s).None? ==> RankCount(s, n) == 3
  {
    if c <= MaxUint64 {
      ParseFormatRoundTrip(c);
    }
  }

  /** Each entry is a symbol of the table with its rate, no symbol twice. */
  predicate FromTable(f: map<string, real>, es: seq<Entry>) {
    && (forall i :: 0 <= i < |es| ==> es[i].symbol in f && es[i].rate == f[es[i].symbol])
    && (forall i, j :: 0 <= i < j < |es| ==> es[i].symbol != es[j].symbol)
  }

  predicate Listed(es: seq<Entry>, k: string) {
    exists i :: 0 <= i < |es| && es[i].symbol == k
  }

  function TopEntries(f: map<string, real>, xs: seq<string>, count: nat): (es: seq<Entry>)
    requires InTable(f, xs) && count <= |xs|
    ensures |es| == count
    ensures forall i :: 0 <= i < count ==> es[i] == Entry(xs[i], f[xs[i]])
  {
    seq(count, i requires 0 <= i < count => Entry(xs[i], f[xs[i]]))
  }

  function BottomEntries(f: map<string, real>, xs: seq<string>, count: nat): (es: seq<Entry>)
    requires InTable(f, xs) && count <= |xs|
    ensures |es| == count
    ensures forall i :: 0 <= i < count ==> es[i] == Entry(xs[|xs| - 1 - i], f[xs[|xs| - 1 - i]])
  {
    seq(count, i requires 0 <= i < count => Entry(xs[|xs| - 1 - i], f[xs[|xs| - 1 - i]]))
  }

  /** A full ranking of the table, cut after `count` entries, holds the
      `count` highest rates in order. */
  lemma TopEntriesRanked(f: map<string, real>, xs: seq<string>, count: nat)
    requires InTable(f, xs) && Descending(f, xs) && Distinct(xs) && count <= |xs|
    requires forall k :: k in f ==> k in xs
    ensures FromTable(f, TopEntries(f, xs, count))
    ensures forall i, j :: 0 <= i < j < count ==>
      TopEntries(f, xs, count)[i].rate >= TopEntries(f, xs, count)[j].rate
    ensures forall k, i :: k in f && !Listed(TopEntries(f, xs, count), k) && 0 <= i < count ==>
      TopEntries(f, xs, count)[i].rate >= f[k]
  {
    var es := TopEntries(f, xs, count);
    forall k | k in f && !Listed(es, k)
      ensures forall i :: 0 <= i < count ==> es[i].rate >= f[k]
    {
      var j :| 0 <= j < |xs| && xs[j] == k;
      forall i | 0 <= i < count ensures es[i].symbol != k {
      }
      assert j >= count;
    }
  }

  /** The same for the `count` lowest rates, lowest first. */
  lemma BottomEntriesRanked(f: map<string, real>, xs: seq<string>, count: nat)
    requires InTable(f, xs) && Descending(f, xs) && Distinct(xs) && count <= |xs|
    requires forall k :: k in f ==> k in xs
    ensures FromTable(f, BottomEntries(f, xs, count))
    ensures forall i, j :: 0 <= i < j < count ==>
      BottomEntries(f, xs, count)[i].rate <= BottomEntries(f, xs, count)[j].rate
    ensures forall k, i :: k in f && !Listed(BottomEntries(f, xs, count), k) && 0 <= i < count ==>
      BottomEntries(f, xs, count)[i].rate <= f[k]
  {
    var es := BottomEntries(f, xs, count);
    var n := |xs|;
    forall i, j | 0 <= i < j < count ensures es[i].rate <= es[j].rate {
      assert f[xs[n - 1 - j]] >= f[xs[n - 1 - i]];
    }
    forall k | k in f && !Listed(es, k)
      ensures forall i :: 0 <= i < count ==> es[i].rate <= f[k]
    {
      var j :| 0 <= j < |xs| && xs[j] == k;
      forall m | n - count <= m < n ensures xs[m] != k {
        assert es[n - 1 - m].symbol == xs[m];
      }
      assert j < n - count;
      forall i | 0 <= i < count ensures es[i].rate <= f[k] {
        assert f[xs[j]] >= f[xs[n - 1 - i]];
      }
    }
  }

  /** The `count` highest rates, highest first. Too few symbols for the count
      makes the Go slice expression panic: `Crash`. */
  method FundingRateTop(funding: map<string, real>, s: string) returns (reply: Reply)
    ensures reply.Crash? <==> RankCount(s, |funding.Keys|) > |funding.Keys|
    ensures !reply.Crash? ==> reply.Ranking? && |reply.entries| == RankCount(s, |funding.Keys|)
    ensures reply.Ranking? ==> FromTable(funding, reply.entries)
    ensures reply.Ranking? ==>
      forall i, j :: 0 <= i < j < |reply.entries| ==> reply.entries[i].rate >= reply.entries[j].rate
    ensures reply.Ranking? ==>
      forall k, i :: k in funding && !Listed(reply.entries, k) && 0 <= i < |reply.entries| ==>
        reply.entries[i].rate >= funding[k]
  {
    var n := |funding.Keys|;
    var count := RankCount(s, n);
    var symbols := SortedSymbols(funding);
    if count > n {
      return Crash;
    }
    TopEntriesRanked(funding, symbols, count);
    reply := Ranking(TopEntries(funding, symbols, count));
  }

  /** The `count` lowest rates, lowest first. Here the count bounds a loop
      over `int`, so a count of 2^63 or more, negative once converted, lists
      nothing instead of panicking; a count of at most 2^63 - 1 that exceeds
      the number of symbols indexes before the start of the slice: `Crash`. */
  method FundingRateBottom(funding: map<string, real>, s: string) returns (reply: Reply)
    ensures reply.Crash? <==> |funding.Keys| < RankCount(s, |funding.Keys|) < TwoTo63
    ensures !reply.Crash? ==> reply.Ranking?
    ensures reply.Ranking? ==>
      |reply.entries| == (if RankCount(s, |funding.Keys|) < TwoTo63 then RankCount(s, |funding.Keys|) else 0)
    ensures reply.Ranking? ==> FromTable(funding, reply.entries)
    ensures reply.Ranking? ==>
      forall i, j :: 0 <= i < j < |reply.entries| ==> reply.entries[i].rate <= reply.entries[j].rate
    ensures reply.Ranking? ==>
      forall k, i :: k in funding && !Listed(reply.entries, k) && 0 <= i < |reply.entries| ==>
        reply.entries[i].rate <= funding[k]
  {
    var n := |funding.Keys|;
    var count := RankCount(s, n);
    var symbols := SortedSymbols(funding);
    if count >= TwoTo63 {
      return Ranking([]);
    }
    if count > n {
      return Crash;
    }
    BottomEntriesRanked(funding, symbols, count);
    reply := Ranking(BottomEntries(funding, symbols, count));
  }
}
