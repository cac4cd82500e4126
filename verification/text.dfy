/** The parts of Go's `strings` and `strconv` packages that the filter's
    decisions depend on, over `seq<char>`. */
module Text {
  import opened Wrappers

  /** Go's `unicode.IsSpace`: ASCII white space, NEL, NBSP and the other
      code points with the Unicode White_Space property. */
  predicate IsSpace(c: char) {
    var n := c as int;
    (0x09 <= n <= 0x0D) || n == 0x20 || n == 0x85 || n == 0xA0 || n == 0x1680
    || (0x2000 <= n <= 0x200A) || n == 0x2028 || n == 0x2029
    || n == 0x202F || n == 0x205F || n == 0x3000
  }

  /** What `strings.Fields` hands back for each field: non-empty, no white space. */
  predicate IsWord(w: string) {
    |w| > 0 && forall i :: 0 <= i < |w| ==> !IsSpace(w[i])
  }

  /** The end of the run of non-space characters that starts at `i`. */
  function WordEnd(s: string, i: nat): (j: nat)
    requires i <= |s|
    ensures i <= j <= |s|
    ensures forall k :: i <= k < j ==> !IsSpace(s[k])
    ensures j < |s| ==> IsSpace(s[j])
    decreases |s| - i
  {
    if i == |s| || IsSpace(s[i]) then i else WordEnd(s, i + 1)
  }

  /** `strings.Fields`: the maximal runs of non-space characters, in order. */
  function Fields(s: string): (fs: seq<string>)
    ensures forall i :: 0 <= i < |fs| ==> IsWord(fs[i])
    decreases |s|
  {
    if |s| == 0 then []
    else if IsSpace(s[0]) then Fields(s[1..])
    else
      var j := WordEnd(s, 0);
      [s[..j]] + Fields(s[j..])
  }

  /** The words separated by single blanks: what an operator types. */
  function JoinSpaced(ws: seq<string>): string
  {
    if |ws| == 0 then ""
    else if |ws| == 1 then ws[0]
    else ws[0] + " " + JoinSpaced(ws[1..])
  }

  lemma FieldsSkipsSpace(c: char, rest: string)
    requires IsSpace(c)
    ensures Fields([c] + rest) == Fields(rest)
  {
    assert ([c] + rest)[1..] == rest;
  }

  lemma FieldsTakesWord(w: string, rest: string)
    requires IsWord(w)
    requires |rest| == 0 || IsSpace(rest[0])
    ensures Fields(w + rest) == [w] + Fields(rest)
  {
    var s := w + rest;
    var j := WordEnd(s, 0);
    assert forall k :: 0 <= k < |w| ==> s[k] == w[k];
    assert |rest| > 0 ==> s[|w|] == rest[0];
    assert j == |w|;
    assert s[..j] == w;
    assert s[j..] == rest;
  }

  /** Splitting blank-separated words gives the words back. */
  lemma {:induction false} FieldsOfJoin(ws: seq<string>)
    requires forall i :: 0 <= i < |ws| ==> IsWord(ws[i])
    ensures Fields(JoinSpaced(ws)) == ws
    decreases |ws|
  {
    if |ws| == 0 {
    } else if |ws| == 1 {
      FieldsTakesWord(ws[0], "");
      assert ws[0] + "" == ws[0];
    } else {
      var tail := JoinSpaced(ws[1..]);
      FieldsTakesWord(ws[0], " " + tail);
      FieldsSkipsSpace(' ', tail);
      FieldsOfJoin(ws[1..]);
      assert JoinSpaced(ws) == ws[0] + (" " + tail);
      assert ws == [ws[0]] + ws[1..];
    }
  }

  /** `unicode.ToUpper` on ASCII letters; other characters are kept. */
  function UpperChar(c: char): char {
    if 'a' <= c <= 'z' then (c as int - 32) as char else c
  }

  predicate IsLowerAscii(c: char) {
    'a' <= c <= 'z'
  }

  /** `strings.ToUpper`, restricted to ASCII case mapping. */
  function ToUpper(s: string): (u: string)
    ensures |u| == |s|
    ensures forall i :: 0 <= i < |s| ==> u[i] == UpperChar(s[i])
  {
    seq(|s|, i requires 0 <= i < |s| => UpperChar(s[i]))
  }

  lemma ToUpperAppend(a: string, b: string)
    ensures ToUpper(a + b) == ToUpper(a) + ToUpper(b)
  {
    assert forall i :: 0 <= i < |a + b| ==> ToUpper(a + b)[i] == (ToUpper(a) + ToUpper(b))[i];
  }

  lemma ToUpperIdempotent(s: string)
    ensures ToUpper(ToUpper(s)) == ToUpper(s)
    ensures forall i :: 0 <= i < |s| ==> !IsLowerAscii(ToUpper(s)[i])
  {
  }

  predicate HasPrefix(s: string, p: string) {
    |p| <= |s| && s[..|p|] == p
  }

  predicate HasSuffix(s: string, p: string) {
    |p| <= |s| && s[|s| - |p|..] == p
  }

  /** `strings.Contains`: `sub` occurs somewhere in `s`. */
  predicate Contains(s: string, sub: string)
    decreases |s|
  {
    HasPrefix(s, sub) || (|s| > 0 && Contains(s[1..], sub))
  }

  lemma {:induction false} ContainsInfix(a: string, sub: string, b: string)
    ensures Contains(a + sub + b, sub)
    decreases |a|
  {
    if |a| == 0 {
      assert a + sub + b == sub + b;
      assert (sub + b)[..|sub|] == sub;
    } else {
      ContainsInfix(a[1..], sub, b);
      assert (a + sub + b)[1..] == a[1..] + sub + b;
    }
  }

  /** A character of `sub` that `s` never holds rules out an occurrence. */
  lemma {:induction false} ContainsNeedsChar(s: string, sub: string, c: char)
    requires c in sub
    requires c !in s
    ensures !Contains(s, sub)
    decreases |s|
  {
    if |sub| <= |s| {
      var i :| 0 <= i < |sub| && sub[i] == c;
      assert s[..|sub|][i] != c;
      assert !HasPrefix(s, sub);
    }
    if |s| > 0 {
      assert forall x :: x in s[1..] ==> x in s;
      ContainsNeedsChar(s[1..], sub, c);
    }
  }

  predicate IsDigit(c: char) {
    '0' <= c <= '9'
  }

  predicate AllDigits(s: string) {
    forall i :: 0 <= i < |s| ==> IsDigit(s[i])
  }

  /** The decimal value of a digit string, most significant digit first. */
  function DigitsValue(s: string): nat
    requires AllDigits(s)
  {
    if |s| == 0 then 0
    else 10 * DigitsValue(s[..|s| - 1]) + (s[|s| - 1] as int - '0' as int)
  }

  const MaxUint64: nat := 0xFFFF_FFFF_FFFF_FFFF

  /** `strconv.ParseUint(s, 10, 64)`: one or more decimal digits, no sign, no
      underscores, and a value that fits in 64 bits; anything else is an error. */
  function ParseUint(s: string): Option<nat>
  {
    if |s| > 0 && AllDigits(s) && DigitsValue(s) <= MaxUint64 then Some(DigitsValue(s)) else None
  }

  function DigitChar(d: nat): char
    requires d < 10
  {
    ('0' as int + d) as char
  }

  /** `strconv.FormatUint(n, 10)`. */
  function FormatUint(n: nat): (s: string)
    ensures |s| > 0 && AllDigits(s)
  {
    if n < 10 then [DigitChar(n)] else FormatUint(n / 10) + [DigitChar(n % 10)]
  }

  lemma {:induction false} DigitsOfFormat(n: nat)
    ensures DigitsValue(FormatUint(n)) == n
  {
    if n >= 10 {
      var s := FormatUint(n);
      assert s[..|s| - 1] == FormatUint(n / 10);
      DigitsOfFormat(n / 10);
    }
  }

  /** Printing a 64-bit count and parsing it back gives the count. */
  lemma ParseFormatRoundTrip(n: nat)
    requires n <= MaxUint64
    ensures ParseUint(FormatUint(n)) == Some(n)
  {
    DigitsOfFormat(n);
  }

  /** A leading sign is not a digit, so ParseUint refuses it. */
  lemma ParseUintRejectsSign(s: string)
    requires |s| > 0 && (s[0] == '-' || s[0] == '+')
    ensures ParseUint(s).None?
  {
    assert !IsDigit(s[0]);
  }
}
