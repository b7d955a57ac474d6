/** The pieces of the Kotlin/JVM standard library that the app's logic relies on:
    nullable values, the 32-bit Int range, decimal conversion, and the handful of
    String functions the screens call (isBlank, padStart, substringAfter, take,
    joinToString, split). Strings are sequences of Unicode scalar values. */
module KotlinText {

  /** A Kotlin nullable `T?`: `None` stands for `null`. */
  datatype Option<+T> = None | Some(value: T) {
    /** The elvis operator `x ?: default`. */
    function GetOr(default: T): T {
      match this
      case Some(v) => v
      case None => default
    }
  }

  /** Bounds of the JVM's 32-bit `Int`. */
  const IntMin: int := -0x8000_0000
  const IntMax: int := 0x7FFF_FFFF

  predicate IsDigit(c: char) { '0' <= c <= '9' }

  /** `s.all { c -> c.isDigit() }`; true of the empty string. */
  predicate AllDigits(s: string) { forall i :: 0 <= i < |s| ==> IsDigit(s[i]) }

  function DigitValue(c: char): nat
    requires IsDigit(c)
  {
    c as int - '0' as int
  }

  function DigitChar(d: nat): (c: char)
    requires d < 10
    ensures IsDigit(c) && DigitValue(c) == d
  {
    ('0' as int + d) as char
  }

  /** The value of a string of decimal digits, most significant digit first. */
  function DecimalValue(s: string): nat
    requires AllDigits(s)
  {
    if s == [] then 0 else 10 * DecimalValue(s[..|s| - 1]) + DigitValue(s[|s| - 1])
  }

  /** Kotlin's `String.toIntOrNull()`: an optional leading '+' or '-' followed by at least
      one digit, whose value fits in `Int`; anything else is `null`. */
  function ToIntOrNull(s: string): (r: Option<int>)
    ensures r.Some? ==> IntMin <= r.value <= IntMax
    ensures r.Some? ==> |s| > 0
  {
    if |s| == 0 then None
    else
      var signed := s[0] == '-' || s[0] == '+';
      var digits := if signed then s[1..] else s;
      if |digits| == 0 || !AllDigits(digits) then None
      else
        var v: int := if s[0] == '-' then -(DecimalValue(digits) as int) else DecimalValue(digits);
        if IntMin <= v <= IntMax then Some(v) else None
  }

  /** `s.toIntOrNull() ?: 0`, as the forms use it for height and weight. */
  function IntOrZero(s: string): int {
    ToIntOrNull(s).GetOr(0)
  }

  /** The decimal digits of a natural number, without leading zeros. */
  function NatToString(n: nat): (s: string)
    ensures |s| > 0 && AllDigits(s)
  {
    if n < 10 then [DigitChar(n)] else NatToString(n / 10) + [DigitChar(n % 10)]
  }

  /** Kotlin's `Int.toString()`. */
  function IntToString(i: int): (s: string)
    ensures |s| > 0
  {
    if i < 0 then "-" + NatToString(-i) else NatToString(i)
  }

  /** Kotlin's `padStart(length, padChar)`. */
  function PadStart(s: string, length: nat, pad: char): (r: string)
    ensures |r| == if |s| >= length then |s| else length
    ensures r[|r| - |s|..] == s
    ensures forall i :: 0 <= i < |r| - |s| ==> r[i] == pad
  {
    if |s| >= length then s else seq(length - |s|, _ => pad) + s
  }

  /** Kotlin's `Char.isWhitespace()` on the JVM: `Character.isWhitespace(c) ||
      Character.isSpaceChar(c)`, i.e. the control characters TAB, LF, VT, FF, CR and
      U+001C..U+001F plus every character of the Unicode categories Zs, Zl and Zp. */
  predicate IsWhitespace(c: char) {
    c == '\t' || c == '\n' || c == '\U{000B}' || c == '\U{000C}' || c == '\r'
    || ('\U{001C}' <= c <= '\U{001F}')
    || c == ' ' || c == '\U{00A0}' || c == '\U{1680}'
    || ('\U{2000}' <= c <= '\U{200A}')
    || c == '\U{2028}' || c == '\U{2029}'
    || c == '\U{202F}' || c == '\U{205F}' || c == '\U{3000}'
  }

  /** Kotlin's `isBlank()`: empty or whitespace only. */
  predicate IsBlank(s: string) { forall i :: 0 <= i < |s| ==> IsWhitespace(s[i]) }

  /** `isNullOrBlank()`. */
  predicate IsNullOrBlank(s: Option<string>) { s.None? || IsBlank(s.value) }

  /** Kotlin's `indexOf(c)`: the first position of `c` in `s`, if any. */
  function IndexOf<T(==)>(s: seq<T>, c: T): (r: Option<nat>)
    ensures r.Some? ==> r.value < |s| && s[r.value] == c && c !in s[..r.value]
    ensures r.None? <==> c !in s
  {
    if s == [] then None
    else if s[0] == c then Some(0)
    else
      match IndexOf(s[1..], c)
      case None => None
      case Some(k) =>
        assert s[..k + 1] == [s[0]] + s[1..][..k];
        Some(k + 1)
  }

  /** Kotlin's `substringAfter(delimiter)`: what follows the first occurrence of the
      delimiter, or the whole string when it does not occur. */
  function SubstringAfter(s: string, delimiter: char): (r: string)
    ensures delimiter !in s ==> r == s
    ensures delimiter in s ==> exists i :: 0 <= i < |s| && s[i] == delimiter && delimiter !in s[..i] && r == s[i + 1..]
  {
    match IndexOf(s, delimiter)
    case None => s
    case Some(i) => s[i + 1..]
  }

  /** Kotlin's `take(n)`: the first `n` characters, or the whole string if it is shorter. */
  function Take(s: string, n: nat): (r: string)
    ensures |r| == if |s| < n then |s| else n
    ensures r == s[..|r|]
  {
    if |s| < n then s else s[..n]
  }

  /** Kotlin's `list - x` and `MutableList.remove(x)`: the first occurrence of `x` is
      dropped; a list without `x` is returned unchanged. */
  function RemoveFirst<T(==)>(s: seq<T>, x: T): (r: seq<T>)
    ensures x !in s ==> r == s
    ensures x in s ==> exists i :: 0 <= i < |s| && s[i] == x && x !in s[..i] && r == s[..i] + s[i + 1..]
    ensures multiset(r) == multiset(s) - multiset{x}
  {
    match IndexOf(s, x)
    case None => s
    case Some(i) =>
      assert s == s[..i] + [s[i]] + s[i + 1..];
      s[..i] + s[i + 1..]
  }

  /** Kotlin's `reversed()`. */
  function Reversed<T>(s: seq<T>): (r: seq<T>)
    ensures |r| == |s|
    ensures forall i :: 0 <= i < |s| ==> r[i] == s[|s| - 1 - i]
    ensures multiset(r) == multiset(s)
  {
    if s == [] then []
    else
      assert s == [s[0]] + s[1..];
      Reversed(s[1..]) + [s[0]]
  }

  /** Kotlin's `joinToString(separator)`. */
  function JoinToString(parts: seq<string>, separator: string): string {
    if |parts| == 0 then ""
    else if |parts| == 1 then parts[0]
    else parts[0] + separator + JoinToString(parts[1..], separator)
  }

  /** `s.split(" ").firstOrNull() ?: s`: the text before the first space; `split` always
      yields at least one piece, so the elvis fallback is never taken. */
  function FirstWord(s: string): (r: string)
    ensures |r| <= |s| && r == s[..|r|]
    ensures ' ' !in r
    ensures ' ' in s ==> s[|r|] == ' '
    ensures ' ' !in s ==> r == s
  {
    match IndexOf(s, ' ')
    case None => s
    case Some(i) => s[..i]
  }

  // ---- Decimal round trips ----

  lemma {:induction false} NatToStringValue(n: nat)
    ensures DecimalValue(NatToString(n)) == n
  {
    var s := NatToString(n);
    if n >= 10 {
      NatToStringValue(n / 10);
      assert s[..|s| - 1] == NatToString(n / 10);
    }
  }

  /** Printing an Int and parsing it back with `toIntOrNull` gives the same Int. */
  lemma IntToStringRoundTrip(i: int)
    requires IntMin <= i <= IntMax
    ensures ToIntOrNull(IntToString(i)) == Some(i)
  {
    if i < 0 {
      NatToStringValue(-i);
      var s := IntToString(i);
      assert s[1..] == NatToString(-i);
    } else {
      NatToStringValue(i);
      var s := NatToString(i);
      assert IsDigit(s[0]);
    }
  }

  /** On a non-empty all-digit string, `toIntOrNull` is its value when that fits in an
      Int, and null (overflow) otherwise. */
  lemma DigitsToIntOrNull(s: string)
    requires |s| > 0 && AllDigits(s)
    ensures ToIntOrNull(s) == if DecimalValue(s) <= IntMax then Some(DecimalValue(s)) else None
  {
    assert IsDigit(s[0]);
  }

  /** The digits of a natural number below 100, as the date's month and day need. */
  lemma NatToStringSmall(n: nat)
    requires n < 100
    ensures n < 10 ==> NatToString(n) == [DigitChar(n)]
    ensures 10 <= n ==> NatToString(n) == [DigitChar(n / 10), DigitChar(n % 10)]
  {
  }

  /** A natural number in 1000..9999 has four digits, as the picked year needs. */
  lemma NatToStringFourDigits(n: nat)
    requires 1000 <= n < 10000
    ensures |NatToString(n)| == 4
  {
    var q := n / 10;
    var r := q / 10;
    assert 100 <= q < 1000 && 10 <= r < 100 && r / 10 < 10;
    assert |NatToString(r)| == 2;
    assert |NatToString(q)| == 3;
  }
}
