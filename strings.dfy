/**
 * The pieces of Go's `strconv` and `strings` packages that the commands rely
 * on, written out so that their edge cases are part of the model: decimal
 * formatting and parsing (with int64 range errors), joining, prefixes, the
 * first index of a substring, removal of one character and trimming.
 */
module Strings {
  import opened Common

  predicate IsDigit(c: char) {
    '0' <= c <= '9'
  }

  predicate AllDigits(s: string) {
    forall i :: 0 <= i < |s| ==> IsDigit(s[i])
  }

  function DigitChar(d: nat): (c: char)
    requires d < 10
    ensures IsDigit(c) && c as int - '0' as int == d
  {
    (d + '0' as int) as char
  }

  /** Decimal digits of `n`, most significant first, without leading zeros. */
  function NatToString(n: nat): (s: string)
    ensures |s| > 0 && AllDigits(s)
    ensures |s| > 1 ==> s[0] != '0'
    decreases n
  {
    if n < 10 then [DigitChar(n)] else NatToString(n / 10) + [DigitChar(n % 10)]
  }

  /** strconv.Itoa (and fmt's "%d"): a '-' sign for negatives, then the digits. */
  function Itoa(n: int): (s: string)
    ensures |s| > 0 && (IsDigit(s[0]) || s[0] == '-') && IsDigit(s[|s| - 1])
    ensures forall i :: 0 <= i < |s| ==> s[i] != ' ' && s[i] != '\n' && s[i] != '\t' && s[i] != '"' && s[i] != '/'
  {
    if n < 0 then "-" + NatToString(-n) else NatToString(n)
  }

  /** The number the decimal digits of `s` denote. */
  function DigitsValue(s: string): nat
    requires AllDigits(s)
  {
    if s == [] then 0 else DigitsValue(s[..|s| - 1]) * 10 + (s[|s| - 1] as int - '0' as int)
  }

  lemma {:induction false} NatToStringValue(n: nat)
    ensures DigitsValue(NatToString(n)) == n
    decreases n
  {
    if n >= 10 {
      var s := NatToString(n / 10) + [DigitChar(n % 10)];
      assert s[..|s| - 1] == NatToString(n / 10);
      NatToStringValue(n / 10);
    }
  }

  lemma {:induction false} DigitsValuePrefix(s: string, i: nat)
    requires AllDigits(s) && i <= |s|
    ensures DigitsValue(s[..i]) <= DigitsValue(s)
    decreases |s| - i
  {
    if i < |s| {
      DigitsValuePrefix(s, i + 1);
      assert s[..i + 1][..i] == s[..i];
    } else {
      assert s[..i] == s;
    }
  }

  const MaxUint64: nat := 0xFFFF_FFFF_FFFF_FFFF
  const MaxInt64: nat := 0x7FFF_FFFF_FFFF_FFFF
  const MinInt64: int := -0x8000_0000_0000_0000

  /** The two failures of strconv's parsers. */
  datatype NumError = SyntaxError | RangeError

  /**
   * strconv.ParseUint(s, 10, 64) after position `i`, with `acc` the value of
   * the digits before it: the first non-digit is a syntax error returning 0,
   * and the first digit that carries the value past 2^64-1 is a range error
   * returning 2^64-1, whichever comes first.
   */
  function ParseUintFrom(s: string, i: nat, acc: nat): (r: (nat, Option<NumError>))
    requires i <= |s| && acc <= MaxUint64
    ensures r.0 <= MaxUint64
    decreases |s| - i
  {
    if i == |s| then (acc, None)
    else if !IsDigit(s[i]) then (0, Some(SyntaxError))
    else
      var next := acc * 10 + (s[i] as int - '0' as int);
      if next > MaxUint64 then (MaxUint64, Some(RangeError))
      else ParseUintFrom(s, i + 1, next)
  }

  function ParseUint(s: string): (r: (nat, Option<NumError>))
    ensures r.0 <= MaxUint64
  {
    if s == "" then (0, Some(SyntaxError)) else ParseUintFrom(s, 0, 0)
  }

  /**
   * strconv.Atoi on a 64-bit platform, i.e. strconv.ParseInt(s, 10, 0): an
   * optional '+' or '-', then decimal digits. A syntax error yields 0; a value
   * outside the int64 range yields the nearest bound, with RangeError.
   */
  function Atoi(s: string): (r: (int, Option<NumError>))
    ensures MinInt64 <= r.0 <= MaxInt64
    ensures r.1 == Some(SyntaxError) ==> r.0 == 0
  {
    if s == "" then (0, Some(SyntaxError))
    else
      var neg := s[0] == '-';
      var digits := if s[0] == '+' || s[0] == '-' then s[1..] else s;
      var parsed := ParseUint(digits);
      var un: int, e := parsed.0, parsed.1;
      if e == Some(SyntaxError) then (0, e)
      else if !neg && un >= MaxInt64 + 1 then (MaxInt64, Some(RangeError))
      else if neg && un > MaxInt64 + 1 then (MinInt64, Some(RangeError))
      else (if neg then -un else un, None)
  }

  lemma {:induction false} ParseUintDigits(s: string, i: nat)
    requires AllDigits(s) && i <= |s| && DigitsValue(s) <= MaxUint64
    ensures DigitsValue(s[..i]) <= MaxUint64
    ensures ParseUintFrom(s, i, DigitsValue(s[..i])) == (DigitsValue(s), None)
    decreases |s| - i
  {
    DigitsValuePrefix(s, i);
    if i == |s| {
      assert s[..i] == s;
    } else {
      assert s[..i + 1][..i] == s[..i];
      DigitsValuePrefix(s, i + 1);
      ParseUintDigits(s, i + 1);
    }
  }

  /** Parsing the decimal form of any int64 gives it back without error. */
  lemma AtoiItoa(n: int)
    requires MinInt64 <= n <= MaxInt64
    ensures Atoi(Itoa(n)) == (n, None)
  {
    var m: nat := if n < 0 then -n else n;
    var d := NatToString(m);
    NatToStringValue(m);
    assert d[..0] == [];
    ParseUintDigits(d, 0);
    if n < 0 {
      assert Itoa(n)[1..] == d;
    }
  }

  /** Distinct numbers have distinct decimal forms. */
  lemma ItoaInjective(a: int, b: int)
    requires MinInt64 <= a <= MaxInt64 && MinInt64 <= b <= MaxInt64
    requires Itoa(a) == Itoa(b)
    ensures a == b
  {
    AtoiItoa(a);
    AtoiItoa(b);
  }

  /** strings.Join. */
  function Join(parts: seq<string>, sep: string): string
  {
    if |parts| == 0 then ""
    else if |parts| == 1 then parts[0]
    else parts[0] + sep + Join(parts[1..], sep)
  }

  /** strings.HasPrefix. */
  predicate HasPrefix(s: string, prefix: string) {
    |prefix| <= |s| && s[..|prefix|] == prefix
  }

  predicate OccursAt(s: string, pat: string, i: int) {
    0 <= i && i + |pat| <= |s| && s[i..i + |pat|] == pat
  }

  /** The first index at or after `i` where `pat` occurs in `s`, or -1. */
  function IndexFrom(s: string, pat: string, i: nat): (r: int)
    requires i <= |s|
    ensures r == -1 || (i <= r && OccursAt(s, pat, r))
    ensures forall j :: i <= j && (r == -1 || j < r) ==> !OccursAt(s, pat, j)
    decreases |s| - i
  {
    if i + |pat| > |s| then -1
    else if s[i..i + |pat|] == pat then i
    else IndexFrom(s, pat, i + 1)
  }

  /** strings.Index: the first occurrence of `pat` in `s`, or -1. */
  function IndexOf(s: string, pat: string): int
  {
    IndexFrom(s, pat, 0)
  }

  /** strings.ReplaceAll(s, string(c), ""). */
  function RemoveChar(s: string, c: char): (r: string)
    ensures c !in r
  {
    if s == [] then [] else (if s[0] == c then [] else [s[0]]) + RemoveChar(s[1..], c)
  }

  lemma {:induction false} RemoveCharAppend(a: string, b: string, c: char)
    ensures RemoveChar(a + b, c) == RemoveChar(a, c) + RemoveChar(b, c)
  {
    if a != [] {
      assert (a + b)[1..] == a[1..] + b;
      RemoveCharAppend(a[1..], b, c);
    } else {
      assert a + b == b;
    }
  }

  predicate IsWhitespace(c: char) {
    c == '\n' || c == '\t' || c == ' '
  }

  /**
   * The three ReplaceAll calls the dataset builders apply to their answers:
   * every newline, then every tab, then every space is removed.
   */
  function StripWhitespace(s: string): string
  {
    RemoveChar(RemoveChar(RemoveChar(s, '\n'), '\t'), ' ')
  }

  /** The characters of `s` that are not whitespace, in order. */
  function RemoveWhitespace(s: string): (r: string)
    ensures forall i :: 0 <= i < |r| ==> !IsWhitespace(r[i])
  {
    if s == [] then [] else (if IsWhitespace(s[0]) then [] else [s[0]]) + RemoveWhitespace(s[1..])
  }

  lemma {:induction false} RemoveWhitespaceAppend(a: string, b: string)
    ensures RemoveWhitespace(a + b) == RemoveWhitespace(a) + RemoveWhitespace(b)
  {
    if a == [] {
      assert a + b == b;
    } else {
      assert (a + b)[1..] == a[1..] + b;
      RemoveWhitespaceAppend(a[1..], b);
    }
  }

  /** Three passes, one per character, remove exactly what one pass over all whitespace removes. */
  lemma {:induction false} StripWhitespaceRemoves(s: string)
    ensures StripWhitespace(s) == RemoveWhitespace(s)
  {
    if s != [] {
      var c, rest := s[0], s[1..];
      var n := RemoveChar(rest, '\n');
      var t := RemoveChar(n, '\t');
      var cn := if c == '\n' then [] else [c];
      assert RemoveChar(s, '\n') == cn + n;
      RemoveCharAppend(cn, n, '\t');
      var ct := if c == '\n' || c == '\t' then [] else [c];
      assert RemoveChar(cn, '\t') == ct by {
        if cn != [] { assert cn[1..] == []; }
      }
      RemoveCharAppend(ct, t, ' ');
      assert RemoveChar(ct, ' ') == (if IsWhitespace(c) then [] else [c]) by {
        if ct != [] { assert ct[1..] == []; }
      }
      StripWhitespaceRemoves(rest);
    }
  }

  /** A string without whitespace is its own squeezed form. */
  lemma {:induction false} RemoveWhitespaceKeeps(s: string)
    requires forall i :: 0 <= i < |s| ==> !IsWhitespace(s[i])
    ensures RemoveWhitespace(s) == s
  {
    if s != [] {
      RemoveWhitespaceKeeps(s[1..]);
    }
  }

  lemma {:induction false} RemoveWhitespaceDrops(s: string)
    requires forall i :: 0 <= i < |s| ==> IsWhitespace(s[i])
    ensures RemoveWhitespace(s) == ""
  {
    if s != [] {
      RemoveWhitespaceDrops(s[1..]);
    }
  }

  /**
   * One step over a text laid out as `key + (whitespace + rest)`: the key is
   * kept, the whitespace goes, and the rest is squeezed in turn.
   */
  lemma RemoveWhitespaceStep(key: string, space: string, rest: string)
    requires RemoveWhitespace(key) == key && RemoveWhitespace(space) == ""
    ensures RemoveWhitespace(key + (space + rest)) == key + RemoveWhitespace(rest)
  {
    RemoveWhitespaceAppend(key, space + rest);
    RemoveWhitespaceAppend(space, rest);
  }

  lemma RemoveWhitespaceKey(key: string, rest: string)
    requires RemoveWhitespace(key) == key
    ensures RemoveWhitespace(key + rest) == key + RemoveWhitespace(rest)
  {
    RemoveWhitespaceAppend(key, rest);
  }

  lemma ItoaHasNoWhitespace(n: int)
    ensures RemoveWhitespace(Itoa(n)) == Itoa(n)
  {
    RemoveWhitespaceKeeps(Itoa(n));
  }

  function TrimLeft(s: string, c: char): (r: string)
    ensures |r| <= |s| && r == s[|s| - |r|..]
    ensures r == [] || r[0] != c
  {
    if s != [] && s[0] == c then TrimLeft(s[1..], c) else s
  }

  function TrimRight(s: string, c: char): (r: string)
    ensures |r| <= |s| && r == s[..|r|]
    ensures r == [] || r[|r| - 1] != c
  {
    if s != [] && s[|s| - 1] == c then TrimRight(s[..|s| - 1], c) else s
  }

  /** strings.Trim(s, string(c)): every leading and trailing `c` removed. */
  function Trim(s: string, c: char): string
  {
    TrimRight(TrimLeft(s, c), c)
  }
}
