/**
 * Text helpers with the meaning JavaScript and Python give them: decimal
 * printing and parsing, `padStart`, `split`, `startsWith`, `includes` / `in`
 * on strings, and case mapping.
 */
module Strings {
  import opened Common

  predicate IsDigit(c: char) { '0' <= c <= '9' }

  predicate AllDigits(s: string) { forall i :: 0 <= i < |s| ==> IsDigit(s[i]) }

  function DigitChar(d: nat): (c: char)
    requires d < 10
    ensures IsDigit(c)
  {
    ['0', '1', '2', '3', '4', '5', '6', '7', '8', '9'][d]
  }

  function DigitValue(c: char): (d: nat)
    requires IsDigit(c)
    ensures d < 10
  {
    (c as int - '0' as int) as nat
  }

  lemma DigitRoundTrip(d: nat)
    requires d < 10
    ensures DigitValue(DigitChar(d)) == d
  {
  }

  /** Decimal digits of `n` without leading zeros (JS `String(n)`, `n.toString()`). */
  function NatToString(n: nat): (s: string)
    ensures |s| >= 1 && AllDigits(s)
    ensures s[0] == '0' ==> n == 0
  {
    if n < 10 then [DigitChar(n)] else NatToString(n / 10) + [DigitChar(n % 10)]
  }

  /** JS template interpolation of an integer: a minus sign for negatives. */
  function IntToString(i: int): (s: string)
    ensures |s| >= 1
    ensures i >= 0 ==> s == NatToString(i)
  {
    if i >= 0 then NatToString(i) else "-" + NatToString(-i)
  }

  /** Value of a string of decimal digits; leading zeros are allowed and the empty string is 0. */
  function ParseNat(s: string): nat
    requires AllDigits(s)
  {
    if s == [] then 0 else ParseNat(s[..|s| - 1]) * 10 + DigitValue(s[|s| - 1])
  }

  lemma {:induction false} ParseNatToString(n: nat)
    ensures ParseNat(NatToString(n)) == n
  {
    if n >= 10 {
      var s := NatToString(n);
      assert s[..|s| - 1] == NatToString(n / 10);
      ParseNatToString(n / 10);
      DigitRoundTrip(n % 10);
    } else {
      DigitRoundTrip(n);
    }
  }

  /** Leading zeros do not change a parsed value. */
  lemma {:induction false} ParseNatLeadingZeros(z: string, s: string)
    requires forall i :: 0 <= i < |z| ==> z[i] == '0'
    requires AllDigits(s)
    ensures AllDigits(z + s)
    ensures ParseNat(z + s) == ParseNat(s)
  {
    if s == [] {
      assert z + s == z;
      AllZerosParse(z);
    } else {
      var t := z + s;
      assert t[..|t| - 1] == z + s[..|s| - 1];
      ParseNatLeadingZeros(z, s[..|s| - 1]);
    }
  }

  lemma {:induction false} AllZerosParse(z: string)
    requires forall i :: 0 <= i < |z| ==> z[i] == '0'
    ensures AllDigits(z) && ParseNat(z) == 0
  {
    if z != [] {
      AllZerosParse(z[..|z| - 1]);
    }
  }

  /** A string of digits contains no other character. */
  lemma DigitsExclude(s: string, c: char)
    requires AllDigits(s) && !IsDigit(c)
    ensures c !in s
  {
  }

  /** `n` copies of `c`. */
  function Repeat(c: char, n: nat): (s: string)
    ensures |s| == n
    ensures forall i :: 0 <= i < n ==> s[i] == c
  {
    if n == 0 then [] else [c] + Repeat(c, n - 1)
  }

  /** JS `s.padStart(width, c)` for a one-character pad string. */
  function PadStart(s: string, width: nat, c: char): (r: string)
    ensures |r| == if |s| >= width then |s| else width
  {
    if |s| >= width then s else Repeat(c, width - |s|) + s
  }

  /** The padded text is the original behind a run of the pad character. */
  lemma PadStartForma(s: string, width: nat, c: char)
    ensures exists k: nat :: k <= |PadStart(s, width, c)| && PadStart(s, width, c) == Repeat(c, k) + s
  {
    if |s| >= width {
      assert PadStart(s, width, c) == Repeat(c, 0) + s;
    } else {
      assert PadStart(s, width, c) == Repeat(c, width - |s|) + s;
    }
  }

  /** A zero-padded decimal reads back as the number it prints. */
  lemma ParsePadded(n: nat, width: nat)
    ensures AllDigits(PadStart(NatToString(n), width, '0'))
    ensures ParseNat(PadStart(NatToString(n), width, '0')) == n
  {
    var s := NatToString(n);
    var r := PadStart(s, width, '0');
    PadStartForma(s, width, '0');
    var k: nat :| k <= |r| && r == Repeat('0', k) + s;
    ParseNatLeadingZeros(Repeat('0', k), s);
    ParseNatToString(n);
  }

  /** Printing a number below 100 padded to width 2 gives exactly two digits. */
  lemma PadTwoLength(n: nat)
    requires n < 100
    ensures |PadStart(NatToString(n), 2, '0')| == 2
  {
    if n >= 10 {
      assert NatToString(n) == NatToString(n / 10) + [DigitChar(n % 10)];
    }
  }

  /** JS `s.split(c)` / Python `s.split(c)` for a one-character separator. */
  function Split(s: string, c: char): (parts: seq<string>)
    ensures |parts| >= 1
  {
    if s == [] then [[]]
    else
      var rest := Split(s[1..], c);
      if s[0] == c then [[]] + rest else [[s[0]] + rest[0]] + rest[1..]
  }

  lemma {:induction false} SplitNoSeparator(s: string, c: char)
    requires c !in s
    ensures Split(s, c) == [s]
  {
    if s != [] {
      SplitNoSeparator(s[1..], c);
      assert [s[0]] + s[1..] == s;
    }
  }

  /** Splitting at one occurrence of the separator splits each side independently. */
  lemma {:induction false} SplitAppend(x: string, c: char, y: string)
    ensures Split(x + [c] + y, c) == Split(x, c) + Split(y, c)
  {
    if x == [] {
      assert x + [c] + y == [c] + y;
      assert ([c] + y)[1..] == y;
    } else {
      assert (x + [c] + y)[1..] == x[1..] + [c] + y;
      SplitAppend(x[1..], c, y);
    }
  }

  /** Splitting a separator-free piece followed by the separator peels that piece off. */
  lemma SplitCons(a: string, c: char, b: string)
    requires c !in a
    ensures Split(a + [c] + b, c) == [a] + Split(b, c)
  {
    SplitAppend(a, c, b);
    SplitNoSeparator(a, c);
  }

  /** Three separator-free pieces joined by the separator split back into the pieces. */
  lemma SplitThree(a: string, b: string, d: string, c: char)
    requires c !in a && c !in b && c !in d
    ensures Split(a + [c] + b + [c] + d, c) == [a, b, d]
  {
    assert a + [c] + b + [c] + d == a + [c] + (b + [c] + d);
    SplitCons(a, c, b + [c] + d);
    SplitCons(b, c, d);
    SplitNoSeparator(d, c);
  }

  lemma SplitTwo(a: string, b: string, c: char)
    requires c !in a && c !in b
    ensures Split(a + [c] + b, c) == [a, b]
  {
    SplitCons(a, c, b);
    SplitNoSeparator(b, c);
  }

  /** Reads a clock face back, `MM:SS` or `M:SS`: minutes and seconds as digit strings around one colon. */
  function ReadClock(text: string): Option<int>
  {
    var parts := Split(text, ':');
    if |parts| == 2 && AllDigits(parts[0]) && AllDigits(parts[1])
    then Some(ParseNat(parts[0]) * 60 + ParseNat(parts[1]))
    else None
  }

  /** Two digit strings around a colon read as minutes and seconds. */
  lemma ReadFields(a: string, b: string)
    requires AllDigits(a) && AllDigits(b)
    ensures ReadClock(a + ":" + b).Some?
    ensures ReadClock(a + ":" + b).value == ParseNat(a) * 60 + ParseNat(b)
  {
    DigitsExclude(a, ':');
    DigitsExclude(b, ':');
    SplitTwo(a, b, ':');
    assert Split(a + ":" + b, ':') == [a, b];
  }

  /** The last piece of a split (Python `s.split(c)[-1]`, JS `s.split(c).pop()`). */
  function LastSegment(s: string, c: char): string
  {
    var parts := Split(s, c);
    parts[|parts| - 1]
  }

  /** The last piece is what follows the last separator, or the whole string without one. */
  lemma LastSegmentAfter(x: string, c: char, b: string)
    requires c !in b
    ensures LastSegment(x + [c] + b, c) == b
    ensures LastSegment(b, c) == b
  {
    SplitAppend(x, c, b);
    SplitNoSeparator(b, c);
  }

  /** No piece of a split holds the separator. */
  lemma {:induction false} SplitPiecesFree(s: string, c: char)
    ensures forall i :: 0 <= i < |Split(s, c)| ==> c !in Split(s, c)[i]
  {
    if s != [] {
      SplitPiecesFree(s[1..], c);
    }
  }

  /** In particular the last piece has no separator. */
  lemma LastSegmentFree(s: string, c: char)
    ensures c !in LastSegment(s, c)
  {
    SplitPiecesFree(s, c);
  }

  /** ASCII whitespace, which Python `str.strip()` and JS `trim()` both remove. */
  predicate IsSpace(c: char)
  {
    c == ' ' || c == '\t' || c == '\n' || c == '\r' || c == '\U{0B}' || c == '\U{0C}'
  }

  /** `s` without its leading whitespace. */
  function TrimStart(s: string): (r: string)
    ensures exists k :: 0 <= k <= |s| && r == s[k..] && forall i :: 0 <= i < k ==> IsSpace(s[i])
    ensures r == [] || !IsSpace(r[0])
  {
    if s != [] && IsSpace(s[0]) then
      var r := TrimStart(s[1..]);
      var k :| 0 <= k <= |s[1..]| && r == s[1..][k..] && forall i :: 0 <= i < k ==> IsSpace(s[1..][i]);
      assert r == s[k + 1..];
      r
    else
      assert s == s[0..];
      s
  }

  /** `s` without its trailing whitespace. */
  function TrimEnd(s: string): (r: string)
    ensures exists k :: 0 <= k <= |s| && r == s[..k] && forall i :: k <= i < |s| ==> IsSpace(s[i])
    ensures r == [] || !IsSpace(r[|r| - 1])
  {
    if s != [] && IsSpace(s[|s| - 1]) then
      var p := s[..|s| - 1];
      var r := TrimEnd(p);
      var k :| 0 <= k <= |p| && r == p[..k] && forall i :: k <= i < |p| ==> IsSpace(p[i]);
      assert forall i :: k <= i < |p| ==> s[i] == p[i];
      assert r == s[..k];
      r
    else
      assert s == s[..|s|];
      s
  }

  /** Python `s.strip()` and JS `s.trim()`: both ends without whitespace. */
  function Strip(s: string): (r: string)
    ensures |r| <= |s|
    ensures r == [] || (!IsSpace(r[0]) && !IsSpace(r[|r| - 1]))
    ensures (forall i :: 0 <= i < |s| ==> IsSpace(s[i])) <==> r == []
  {
    StripVacio(s);
    TrimEnd(TrimStart(s))
  }

  /** What is left after trimming is empty exactly when every character is whitespace. */
  lemma StripVacio(s: string)
    ensures (forall i :: 0 <= i < |s| ==> IsSpace(s[i])) <==> TrimEnd(TrimStart(s)) == []
  {
    if forall i :: 0 <= i < |s| ==> IsSpace(s[i]) {
      SoloEspacios(s);
    }
    if TrimEnd(TrimStart(s)) == [] {
      NadaQueda(s);
    }
  }

  lemma {:induction false} SoloEspacios(s: string)
    requires forall i :: 0 <= i < |s| ==> IsSpace(s[i])
    ensures TrimStart(s) == []
    decreases |s|
  {
    if s != [] {
      SoloEspacios(s[1..]);
    }
  }

  lemma {:induction false} NadaQueda(s: string)
    requires TrimEnd(TrimStart(s)) == []
    ensures forall i :: 0 <= i < |s| ==> IsSpace(s[i])
    decreases |s|
  {
    if s != [] && IsSpace(s[0]) {
      NadaQueda(s[1..]);
      assert forall i :: 1 <= i < |s| ==> s[i] == s[1..][i - 1];
    } else {
      TrimEndVacio(s);
    }
  }

  lemma TrimEndVacio(s: string)
    requires TrimEnd(s) == []
    ensures forall i :: 0 <= i < |s| ==> IsSpace(s[i])
  {
    var k :| 0 <= k <= |s| && TrimEnd(s) == s[..k] && forall i :: k <= i < |s| ==> IsSpace(s[i]);
  }

  /** JS `s.startsWith(p)`. */
  predicate StartsWith(s: string, p: string)
  {
    |p| <= |s| && s[..|p|] == p
  }

  /** JS `h.includes(n)`, Python `n in h`: `n` occurs somewhere in `h`. */
  predicate Contains(h: string, n: string)
  {
    StartsWith(h, n) || (h != [] && Contains(h[1..], n))
  }

  /** `Contains` finds exactly the positions where `n` occurs. */
  lemma {:induction false} ContainsAt(h: string, n: string)
    ensures Contains(h, n) <==> exists i :: 0 <= i <= |h| && StartsWith(h[i..], n)
  {
    assert h[0..] == h;
    if h != [] {
      ContainsAt(h[1..], n);
      if exists i :: 0 <= i <= |h| && StartsWith(h[i..], n) {
        var i :| 0 <= i <= |h| && StartsWith(h[i..], n);
        if i > 0 {
          assert h[1..][i - 1..] == h[i..];
        }
      }
      if Contains(h[1..], n) {
        var j :| 0 <= j <= |h[1..]| && StartsWith(h[1..][j..], n);
        assert h[1..][j..] == h[j + 1..];
      }
    }
  }

  /** Lower-casing of one character, for ASCII and the accented capitals of Spanish. */
  function LowerChar(c: char): char
  {
    if 'A' <= c <= 'Z' then (c as int + 32) as char
    else if c == 'Á' then 'á' else if c == 'É' then 'é' else if c == 'Í' then 'í'
    else if c == 'Ó' then 'ó' else if c == 'Ú' then 'ú' else if c == 'Ñ' then 'ñ'
    else if c == 'Ü' then 'ü' else c
  }

  function UpperChar(c: char): char
  {
    if 'a' <= c <= 'z' then (c as int - 32) as char
    else if c == 'á' then 'Á' else if c == 'é' then 'É' else if c == 'í' then 'Í'
    else if c == 'ó' then 'Ó' else if c == 'ú' then 'Ú' else if c == 'ñ' then 'Ñ'
    else if c == 'ü' then 'Ü' else c
  }

  /** JS `toLowerCase`, Python `lower`. */
  function Lower(s: string): (r: string)
    ensures |r| == |s|
    ensures forall i :: 0 <= i < |s| ==> r[i] == LowerChar(s[i])
  {
    if s == [] then [] else [LowerChar(s[0])] + Lower(s[1..])
  }

  /** JS `toUpperCase`. */
  function Upper(s: string): (r: string)
    ensures |r| == |s|
    ensures forall i :: 0 <= i < |s| ==> r[i] == UpperChar(s[i])
  {
    if s == [] then [] else [UpperChar(s[0])] + Upper(s[1..])
  }

  lemma LowerIdempotent(s: string)
    ensures Lower(Lower(s)) == Lower(s)
  {
  }

  /** Case-insensitive substring test, as the pages' search boxes perform it. */
  predicate ContainsIgnoreCase(h: string, n: string)
  {
    Contains(Lower(h), Lower(n))
  }

  /**
   * JS `parseInt(s, 10)`: an optional sign and the leading digits; `None` is NaN.
   * Unlike `parseInt`, leading whitespace is not skipped: the text read here
   * comes from number inputs, whose value never starts with a space.
   */
  function ParseIntPrefix(s: string): (r: Option<int>)
    ensures r.Some? ==> (|s| > 0 && (IsDigit(s[0]) || ((s[0] == '-' || s[0] == '+') && |s| > 1 && IsDigit(s[1]))))
  {
    if |s| > 0 && IsDigit(s[0]) then Some(ParseNat(DigitPrefix(s)))
    else if |s| > 1 && s[0] == '-' && IsDigit(s[1]) then Some(0 - ParseNat(DigitPrefix(s[1..])) as int)
    else if |s| > 1 && s[0] == '+' && IsDigit(s[1]) then Some(ParseNat(DigitPrefix(s[1..])))
    else None
  }

  /** The longest prefix of decimal digits. */
  function DigitPrefix(s: string): (p: string)
    ensures AllDigits(p) && |p| <= |s| && p == s[..|p|]
    ensures |p| < |s| ==> !IsDigit(s[|p|])
  {
    if s == [] || !IsDigit(s[0]) then [] else [s[0]] + DigitPrefix(s[1..])
  }

  lemma ParseIntOfNat(n: nat)
    ensures ParseIntPrefix(NatToString(n)) == Some(n)
  {
    var s := NatToString(n);
    AllDigitsPrefix(s);
    ParseNatToString(n);
  }

  lemma {:induction false} AllDigitsPrefix(s: string)
    requires AllDigits(s)
    ensures DigitPrefix(s) == s
  {
    if s != [] {
      AllDigitsPrefix(s[1..]);
    }
  }

  /** Lexicographic order on strings (JS default `sort`, comparison of Python `str`). */
  predicate StrLe(a: string, b: string)
    decreases |a|
  {
    if a == [] then true
    else if b == [] then false
    else if a[0] < b[0] then true
    else if a[0] > b[0] then false
    else StrLe(a[1..], b[1..])
  }

  lemma {:induction false} StrLeTotal(a: string, b: string)
    ensures StrLe(a, b) || StrLe(b, a)
    decreases |a|
  {
    if a != [] && b != [] && a[0] == b[0] {
      StrLeTotal(a[1..], b[1..]);
    }
  }

  lemma {:induction false} StrLeTrans(a: string, b: string, c: string)
    requires StrLe(a, b) && StrLe(b, c)
    ensures StrLe(a, c)
    decreases |a|
  {
    if a != [] && b != [] && c != [] && a[0] == b[0] && b[0] == c[0] {
      StrLeTrans(a[1..], b[1..], c[1..]);
    }
  }

  lemma {:induction false} StrLeAntisym(a: string, b: string)
    requires StrLe(a, b) && StrLe(b, a)
    ensures a == b
    decreases |a|
  {
    if a != [] && b != [] {
      StrLeAntisym(a[1..], b[1..]);
      assert a == [a[0]] + a[1..];
      assert b == [b[0]] + b[1..];
    }
  }

  lemma StrLeTotalPreorder()
    ensures TotalPreorder(StrLe)
  {
    forall a: string, b: string ensures StrLe(a, b) || StrLe(b, a) {
      StrLeTotal(a, b);
    }
    forall a: string, b: string, c: string | StrLe(a, b) && StrLe(b, c) ensures StrLe(a, c) {
      StrLeTrans(a, b, c);
    }
  }
}
