/**
 * The parts of Rust's standard library the crate relies on for text:
 * decimal rendering of integers (`Display` for `u32`), `str::parse` for
 * `u32` and `i64`, `str::split` on a character, `Iterator::nth`,
 * `str::split_ascii_whitespace`, and `/` on `i64` (which truncates).
 */
module Strings {
  import opened Wrappers

  /** Rust's `u32`. */
  const U32_LIMIT: nat := 0x1_0000_0000
  type U32 = x: int | 0 <= x < 0x1_0000_0000

  /** Rust's `i64`. */
  const I64_LIMIT: nat := 0x8000_0000_0000_0000

  predicate IsDigit(c: char) {
    '0' <= c <= '9'
  }

  predicate AllDigits(s: string) {
    forall i | 0 <= i < |s| :: IsDigit(s[i])
  }

  function DigitChar(d: nat): (c: char)
    requires d < 10
    ensures IsDigit(c)
  {
    ('0' as int + d) as char
  }

  function DigitValue(c: char): (d: nat)
    requires IsDigit(c)
    ensures d < 10 && DigitChar(d) == c
  {
    c as int - '0' as int
  }

  /** Decimal rendering of a natural number (`format!("{}", n)` for an
      unsigned integer): digits only, no sign, no leading zero. */
  function NatToString(n: nat): (s: string)
    ensures |s| > 0 && AllDigits(s)
    ensures s[0] == '0' ==> n == 0
    ensures n < 10 <==> |s| == 1
    decreases n
  {
    if n < 10 then [DigitChar(n)] else NatToString(n / 10) + [DigitChar(n % 10)]
  }

  /** The value of a string of decimal digits, most significant first. */
  function DecimalValue(s: string): nat
    requires AllDigits(s)
    decreases |s|
  {
    if s == [] then 0 else DecimalValue(s[..|s| - 1]) * 10 + DigitValue(s[|s| - 1])
  }

  lemma {:induction false} DecimalValueOfNatToString(n: nat)
    ensures DecimalValue(NatToString(n)) == n
    decreases n
  {
    if n >= 10 {
      DecimalValueOfNatToString(n / 10);
      var s := NatToString(n);
      assert s[..|s| - 1] == NatToString(n / 10);
    }
  }

  /** Distinct numbers render differently. */
  lemma NatToStringInjective(m: nat, n: nat)
    requires NatToString(m) == NatToString(n)
    ensures m == n
  {
    DecimalValueOfNatToString(m);
    DecimalValueOfNatToString(n);
  }

  /** The digits after an optional leading `sign` character. */
  function StripSign(s: string, sign: char): string {
    if |s| > 0 && s[0] == sign then s[1..] else s
  }

  /** Rust's `str::parse::<u32>`: an optional `+`, then at least one ASCII
      digit (leading zeros allowed), with a value below 2^32; anything
      else (empty, a lone `+`, a `-`, another character, overflow) fails. */
  function ParseU32(s: string): (r: Option<U32>)
    ensures r.Some? ==> forall i | 0 <= i < |s| :: IsDigit(s[i]) || (i == 0 && s[i] == '+')
    ensures s == [] || s == "+" ==> r.None?
  {
    var digits := StripSign(s, '+');
    if |digits| > 0 && AllDigits(digits) && DecimalValue(digits) < U32_LIMIT
    then Some(DecimalValue(digits))
    else None
  }

  /** Every `u32` survives rendering and parsing back. */
  lemma ParseU32OfNatToString(n: U32)
    ensures ParseU32(NatToString(n)) == Some(n)
  {
    DecimalValueOfNatToString(n);
  }

  /** Rust's `str::parse::<i64>`: an optional `+` or `-`, then at least one
      ASCII digit, with a value in [-2^63, 2^63). */
  function ParseI64(s: string): (r: Option<int>)
    ensures r.Some? ==> -(I64_LIMIT as int) <= r.value < I64_LIMIT
    ensures r.Some? && r.value < 0 ==> |s| > 0 && s[0] == '-'
    ensures s == [] || s == "+" || s == "-" ==> r.None?
  {
    if |s| > 0 && s[0] == '-' then
      var digits := s[1..];
      if |digits| > 0 && AllDigits(digits) && DecimalValue(digits) <= I64_LIMIT
      then Some(0 - DecimalValue(digits) as int)
      else None
    else
      var digits := StripSign(s, '+');
      if |digits| > 0 && AllDigits(digits) && DecimalValue(digits) < I64_LIMIT
      then Some(DecimalValue(digits))
      else None
  }

  /** Every natural number below 2^63 survives rendering and parsing as `i64`. */
  lemma ParseI64OfNatToString(n: nat)
    requires n < I64_LIMIT
    ensures ParseI64(NatToString(n)) == Some(n)
  {
    DecimalValueOfNatToString(n);
  }

  /** Rust's `/` on signed integers: the quotient truncated toward zero,
      so `b * q` is the multiple of `b` nearest to `a` on the side of zero. */
  function TruncDiv(a: int, b: nat): (q: int)
    requires b > 0
    ensures a >= 0 ==> b * q <= a < b * q + b
    ensures a < 0 ==> b * q - b < a <= b * q
  {
    if a >= 0 then a / b else -((-a) / b)
  }

  /** `str::split(sep)` on a character: the pieces between separators, in
      order; there is always at least one piece. */
  function Split(s: string, sep: char): (parts: seq<string>)
    ensures |parts| >= 1
    ensures forall i | 0 <= i < |parts| :: sep !in parts[i]
    decreases |s|
  {
    if s == [] then [""]
    else
      var rest := Split(s[1..], sep);
      if s[0] == sep then [""] + rest else [[s[0]] + rest[0]] + rest[1..]
  }

  /** The inverse of `Split`: the pieces with one separator between each two. */
  function Join(parts: seq<string>, sep: char): string
    requires |parts| >= 1
    decreases |parts|
  {
    if |parts| == 1 then parts[0] else parts[0] + [sep] + Join(parts[1..], sep)
  }

  lemma {:induction false} JoinSplit(s: string, sep: char)
    ensures Join(Split(s, sep), sep) == s
    decreases |s|
  {
    if s != [] {
      JoinSplit(s[1..], sep);
      var rest := Split(s[1..], sep);
      if s[0] != sep {
        if |rest| > 1 {
          assert ([[s[0]] + rest[0]] + rest[1..])[1..] == rest[1..];
        }
      }
    }
  }

  /** A string without the separator is a single piece. */
  lemma {:induction false} SplitNoSeparator(s: string, sep: char)
    requires sep !in s
    ensures Split(s, sep) == [s]
    decreases |s|
  {
    if s != [] {
      SplitNoSeparator(s[1..], sep);
      assert [s[0]] + s[1..] == s;
    }
  }

  /** Splitting at a separator splits each side independently. */
  lemma {:induction false} SplitAtSeparator(a: string, b: string, sep: char)
    ensures Split(a + [sep] + b, sep) == Split(a, sep) + Split(b, sep)
    decreases |a|
  {
    var s := a + [sep] + b;
    if a == [] {
      assert s[1..] == b;
    } else {
      assert s[1..] == a[1..] + [sep] + b;
      SplitAtSeparator(a[1..], b, sep);
    }
  }

  lemma {:induction false} SplitJoin(parts: seq<string>, sep: char)
    requires |parts| >= 1
    requires forall i | 0 <= i < |parts| :: sep !in parts[i]
    ensures Split(Join(parts, sep), sep) == parts
    decreases |parts|
  {
    if |parts| == 1 {
      SplitNoSeparator(parts[0], sep);
    } else {
      SplitJoin(parts[1..], sep);
      SplitAtSeparator(parts[0], Join(parts[1..], sep), sep);
      SplitNoSeparator(parts[0], sep);
    }
  }

  /** `Iterator::nth`: the element at index `k`, if there is one. */
  function Nth<T>(xs: seq<T>, k: nat): (r: Option<T>)
    ensures r.Some? <==> k < |xs|
    ensures r.Some? ==> r.value == xs[k]
  {
    if k < |xs| then Some(xs[k]) else None
  }

  /** The characters `split_ascii_whitespace` separates on. */
  predicate IsAsciiWhitespace(c: char) {
    c == ' ' || c == '\t' || c == '\n' || c == '\r' || c == '\U{000C}'
  }

  /** `str::split_ascii_whitespace`: the maximal runs of non-whitespace
      characters, in order. `word` is the run being read. */
  function WordsFrom(s: string, word: string): (ws: seq<string>)
    ensures forall i | 0 <= i < |ws| :: |ws[i]| > 0
    decreases |s|
  {
    if s == [] then (if word == [] then [] else [word])
    else if IsAsciiWhitespace(s[0]) then (if word == [] then [] else [word]) + WordsFrom(s[1..], [])
    else WordsFrom(s[1..], word + [s[0]])
  }

  function Words(s: string): seq<string> {
    WordsFrom(s, [])
  }

  /** No word is empty and no word contains whitespace, so a string that is
      empty or holds whitespace is never one of the words. */
  lemma {:induction false} WordsAreTokens(s: string, word: string, w: string)
    requires forall i | 0 <= i < |word| :: !IsAsciiWhitespace(word[i])
    requires w in WordsFrom(s, word)
    ensures |w| > 0 && forall i | 0 <= i < |w| :: !IsAsciiWhitespace(w[i])
    decreases |s|
  {
    if s == [] {
    } else if IsAsciiWhitespace(s[0]) {
      if w != word {
        WordsAreTokens(s[1..], [], w);
      }
    } else {
      WordsAreTokens(s[1..], word + [s[0]], w);
    }
  }

  /** A string that is exactly one token splits into that token. */
  lemma {:induction false} WordsOfToken(s: string, word: string)
    requires forall i | 0 <= i < |s| :: !IsAsciiWhitespace(s[i])
    requires |word + s| > 0
    ensures WordsFrom(s, word) == [word + s]
    decreases |s|
  {
    if s != [] {
      assert !IsAsciiWhitespace(s[0]);
      assert word + s == (word + [s[0]]) + s[1..];
      WordsOfToken(s[1..], word + [s[0]]);
    } else {
      assert word + s == word;
    }
  }

  /** A token followed by a space is the first word, and the rest of the
      string is split independently. */
  lemma {:induction false} WordsAfterToken(tok: string, rest: string)
    requires |tok| > 0 && forall i | 0 <= i < |tok| :: !IsAsciiWhitespace(tok[i])
    ensures WordsFrom(tok + [' '] + rest, []) == [tok] + WordsFrom(rest, [])
  {
    WordsAfterTokenFrom(tok, [], rest);
    assert [] + tok == tok;
  }

  lemma {:induction false} WordsAfterTokenFrom(tok: string, word: string, rest: string)
    requires |word + tok| > 0 && forall i | 0 <= i < |tok| :: !IsAsciiWhitespace(tok[i])
    ensures WordsFrom(tok + [' '] + rest, word) == [word + tok] + WordsFrom(rest, [])
    decreases |tok|
  {
    var s := tok + [' '] + rest;
    if tok == [] {
      assert s[1..] == rest;
      assert word + tok == word;
    } else {
      assert s[0] == tok[0] && !IsAsciiWhitespace(s[0]);
      assert s[1..] == tok[1..] + [' '] + rest;
      assert word + tok == (word + [tok[0]]) + tok[1..];
      WordsAfterTokenFrom(tok[1..], word + [tok[0]], rest);
    }
  }
}
