/**
 * The few pieces of the Java platform the payment gateway relies on, written
 * out so that their edge cases are explicit: the 32-bit `int`, decimal
 * rendering (`String.valueOf(int)` and `%d`), `Integer.parseInt`,
 * `String.split` on a single plain character, `String.matches("\\d+")` and
 * ASCII `toUpperCase`.
 */
module JavaLang {
  import opened Wrappers

  const IntMin: int := -0x8000_0000
  const IntMax: int := 0x7fff_ffff

  /** Java's `int`. */
  type Int32 = x: int | -0x8000_0000 <= x <= 0x7fff_ffff

  predicate IsAsciiDigit(c: char) {
    '0' <= c <= '9'
  }

  /** Every character is an ASCII digit (the empty string included). */
  predicate AllDigits(s: string) {
    forall i :: 0 <= i < |s| ==> IsAsciiDigit(s[i])
  }

  /** `s.matches("\\d+")`: one or more ASCII digits (`\d` is ASCII-only in java.util.regex). */
  predicate MatchesDigits(s: string)
    ensures MatchesDigits(s) ==> |s| > 0 && IsAsciiDigit(s[0]) && IsAsciiDigit(s[|s| - 1])
  {
    |s| > 0 && AllDigits(s)
  }

  function DigitChar(d: nat): (c: char)
    requires d < 10
    ensures IsAsciiDigit(c) && DigitValue(c) == d
  {
    ('0' as int + d) as char
  }

  function DigitValue(c: char): (d: nat)
    requires IsAsciiDigit(c)
    ensures d < 10
  {
    c as int - '0' as int
  }

  function Pow10(k: nat): (p: nat)
    ensures p >= 1
  {
    if k == 0 then 1 else 10 * Pow10(k - 1)
  }

  // ---------------------------------------------------------------------------
  // Decimal rendering: String.valueOf(int), String.format("%d", int)
  // ---------------------------------------------------------------------------

  /** The decimal numeral of `n`, most significant digit first, without leading zeros. */
  function NatToString(n: nat): (s: string)
    ensures MatchesDigits(s)
    ensures s[0] == '0' ==> n == 0
  {
    if n < 10 then [DigitChar(n)] else NatToString(n / 10) + [DigitChar(n % 10)]
  }

  /** `String.valueOf(n)`: a minus sign for negative values, then the digits of |n|. */
  function IntToString(n: int): (s: string)
    ensures |s| > 0
    ensures forall i :: 0 <= i < |s| ==> IsAsciiDigit(s[i]) || (i == 0 && s[i] == '-')
    ensures s[0] == '-' <==> n < 0
  {
    if n < 0 then "-" + NatToString(-n) else NatToString(n)
  }

  /** The value of a string of ASCII digits read as a decimal numeral (leading zeros allowed). */
  function DecimalValue(s: string): nat
    requires AllDigits(s)
  {
    if s == [] then 0 else DecimalValue(s[..|s| - 1]) * 10 + DigitValue(s[|s| - 1])
  }

  lemma DecimalValueSnoc(s: string, c: char)
    requires AllDigits(s) && IsAsciiDigit(c)
    ensures AllDigits(s + [c]) && DecimalValue(s + [c]) == 10 * DecimalValue(s) + DigitValue(c)
  {
    assert (s + [c])[..|s|] == s;
  }

  lemma {:induction false} NatToStringValue(n: nat)
    ensures DecimalValue(NatToString(n)) == n
  {
    if n >= 10 {
      var s := NatToString(n);
      assert s[..|s| - 1] == NatToString(n / 10);
      NatToStringValue(n / 10);
    }
  }

  /** The number of digits of `n` is the `k` with 10^(k-1) <= n < 10^k (for n = 0, k = 1). */
  lemma {:induction false} NatToStringLength(n: nat)
    ensures n < Pow10(|NatToString(n)|)
    ensures |NatToString(n)| > 1 ==> Pow10(|NatToString(n)| - 1) <= n
  {
    if n >= 10 {
      var k := |NatToString(n / 10)|;
      NatToStringLength(n / 10);
      assert |NatToString(n)| == k + 1;
      assert n / 10 < Pow10(k);
      assert n < 10 * Pow10(k);
      if k > 1 {
        assert Pow10(k - 1) <= n / 10;
        assert Pow10(k) <= n;
      }
    }
  }

  lemma {:induction false} Pow10Monotone(i: nat, j: nat)
    requires i <= j
    ensures Pow10(i) <= Pow10(j)
  {
    if i < j {
      Pow10Monotone(i, j - 1);
    }
  }

  /**
   * `String.valueOf(n)` has 3 or 4 characters, all digits, exactly when
   * 100 <= n <= 9999: a negative value starts with '-', and a non-negative one
   * has 3 or 4 digits exactly in that range.
   */
  lemma ThreeOrFourDigits(n: int)
    ensures (3 <= |IntToString(n)| <= 4 && MatchesDigits(IntToString(n))) <==> 100 <= n <= 9999
  {
    if n >= 0 {
      var k := |NatToString(n)|;
      NatToStringLength(n);
      assert Pow10(2) == 100 && Pow10(4) == 10000;
      if 3 <= k <= 4 {
        Pow10Monotone(2, k - 1);
        Pow10Monotone(k, 4);
      }
      if 100 <= n <= 9999 {
        if k < 3 {
          Pow10Monotone(k, 2);
        }
        if k > 4 {
          Pow10Monotone(4, k - 1);
        }
      }
    } else {
      assert !IsAsciiDigit(IntToString(n)[0]);
    }
  }

  /** `String.valueOf(n).matches("\\d+")` holds exactly for the non-negative values. */
  lemma MatchesDigitsOfRendering(n: int)
    ensures MatchesDigits(IntToString(n)) <==> n >= 0
  {
    if n < 0 {
      assert !IsAsciiDigit(IntToString(n)[0]);
    }
  }

  // ---------------------------------------------------------------------------
  // Integer.parseInt(String)
  // ---------------------------------------------------------------------------

  /**
   * `Integer.parseInt(s)` in radix 10: an optional '+' or '-', then one or
   * more digits, with a value inside the `int` range. `None` is the
   * NumberFormatException.
   */
  function ParseInt(s: string): (r: Option<Int32>)
    ensures MatchesDigits(s) && DecimalValue(s) <= IntMax ==> r == Some(DecimalValue(s))
    ensures r.Some? ==> |s| > 0 && (r.value < 0 ==> s[0] == '-')
  {
    if |s| == 0 then None
    else
      var digits := if s[0] == '-' || s[0] == '+' then s[1..] else s;
      if !MatchesDigits(digits) then None
      else
        var magnitude: int := DecimalValue(digits);
        var v := if s[0] == '-' then -magnitude else magnitude;
        if IntMin <= v <= IntMax then Some(v) else None
  }

  /** `Integer.parseInt(String.valueOf(n)) == n` for every `int` n. */
  lemma ParseIntOfRendering(n: Int32)
    ensures ParseInt(IntToString(n)) == Some(n)
  {
    var s := IntToString(n);
    if n < 0 {
      var magnitude: nat := -(n as int);
      var digits := NatToString(magnitude);
      assert s[0] == '-' && s[1..] == digits;
      NatToStringValue(magnitude);
    } else {
      var digits := NatToString(n);
      assert s == digits && IsAsciiDigit(s[0]);
      NatToStringValue(n);
    }
  }

  /** What `Integer.parseInt` accepts: never the empty string or a lone sign; a result is an `int`. */
  lemma ParseIntRejects(s: string)
    ensures s == [] ==> ParseInt(s).None?
    ensures s == "-" || s == "+" ==> ParseInt(s).None?
    ensures ParseInt(s).Some? ==> IntMin <= ParseInt(s).value <= IntMax
    ensures (exists i :: 0 <= i < |s| && s[i] == '/') ==> ParseInt(s).None?
  {
  }

  // ---------------------------------------------------------------------------
  // String.split(String) on a single character that is not a regex metacharacter
  // ---------------------------------------------------------------------------

  /** The index of the first `c` in `s`. */
  function IndexOf(s: string, c: char): (i: nat)
    requires c in s
    ensures i < |s| && s[i] == c && c !in s[..i]
  {
    if s[0] == c then 0
    else
      var j := IndexOf(s[1..], c);
      assert s[..1 + j] == [s[0]] + s[1..][..j];
      1 + j
  }

  /** The pieces of `s` between the occurrences of `sep`, empty pieces included. */
  function Pieces(s: string, sep: char): (ps: seq<string>)
    ensures |ps| > 0
    ensures forall k :: 0 <= k < |ps| ==> sep !in ps[k]
    decreases |s|
  {
    if sep !in s then [s]
    else
      var i := IndexOf(s, sep);
      [s[..i]] + Pieces(s[i + 1..], sep)
  }

  /** `ps` joined with `sep` between consecutive pieces. */
  function Join(ps: seq<string>, sep: char): string {
    if |ps| == 0 then []
    else if |ps| == 1 then ps[0]
    else ps[0] + [sep] + Join(ps[1..], sep)
  }

  /** Cutting at every `sep` loses nothing: joining the pieces gives `s` back. */
  lemma {:induction false} JoinPieces(s: string, sep: char)
    ensures Join(Pieces(s, sep), sep) == s
    decreases |s|
  {
    if sep in s {
      var i := IndexOf(s, sep);
      var rest := s[i + 1..];
      JoinPieces(rest, sep);
      assert s == s[..i] + [sep] + rest;
    }
  }

  /** `ps` without its trailing empty strings. */
  function DropTrailingEmpty(ps: seq<string>): (r: seq<string>)
    ensures r <= ps
    ensures r == [] || r[|r| - 1] != []
    ensures forall k :: |r| <= k < |ps| ==> ps[k] == []
  {
    if ps != [] && ps[|ps| - 1] == [] then DropTrailingEmpty(ps[..|ps| - 1]) else ps
  }

  /**
   * `s.split(String.valueOf(sep))` with Java's default limit 0: when `sep`
   * does not occur, the whole string; otherwise the pieces with the trailing
   * empty ones removed (a leading empty piece is kept).
   */
  function JavaSplit(s: string, sep: char): (parts: seq<string>)
    ensures forall k :: 0 <= k < |parts| ==> sep !in parts[k]
  {
    if sep !in s then [s] else DropTrailingEmpty(Pieces(s, sep))
  }

  /** The text before the first separator is the first piece. */
  lemma PiecesCons(a: string, rest: string, sep: char)
    requires sep !in a
    ensures Pieces(a + [sep] + rest, sep) == [a] + Pieces(rest, sep)
  {
    var s := a + [sep] + rest;
    assert s[|a|] == sep;
    var i := IndexOf(s, sep);
    assert i == |a|;
    assert s[..i] == a;
    assert s[i + 1..] == rest;
  }

  /** Two separator-free strings, the second non-empty, split back apart. */
  lemma SplitTwo(a: string, b: string, sep: char)
    requires sep !in a && sep !in b && b != []
    ensures JavaSplit(a + [sep] + b, sep) == [a, b]
  {
    PiecesCons(a, b, sep);
    assert (a + [sep] + b)[|a|] == sep;
  }

  // ---------------------------------------------------------------------------
  // String.toUpperCase(), ASCII letters only
  // ---------------------------------------------------------------------------

  function ToUpperChar(c: char): (u: char)
    ensures 'a' <= c <= 'z' ==> u as int == c as int - 32
    ensures !('a' <= c <= 'z') ==> u == c
  {
    if 'a' <= c <= 'z' then (c as int - 32) as char else c
  }

  /** `s.toUpperCase()`: every ASCII lower-case letter replaced by its capital. */
  function ToUpperCase(s: string): (u: string)
    ensures |u| == |s|
    ensures forall i :: 0 <= i < |s| ==> u[i] == ToUpperChar(s[i])
  {
    if s == [] then [] else [ToUpperChar(s[0])] + ToUpperCase(s[1..])
  }
}
