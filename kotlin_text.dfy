/**
 * The few pieces of the Kotlin standard library the app's logic relies on:
 * `Char.isDigit`, `String.filter`, `CharSequence.isBlank`, the low-32-bit
 * truncation of `BigInteger.toInt()` and the remainder operator `%` on `Int`.
 * Characters are restricted to ASCII digits and a fixed whitespace set.
 */
module KotlinText {

  const TwoTo31: int := 0x8000_0000
  const TwoTo32: int := 0x1_0000_0000

  /** `Char.isDigit`, restricted to the ASCII digits. */
  predicate IsDigit(c: char) {
    '0' <= c <= '9'
  }

  predicate AllDigits(s: string) {
    forall i :: 0 <= i < |s| ==> IsDigit(s[i])
  }

  /** `s.filter { it.isDigit() }`: the digit characters of `s`, in order. */
  function Digits(s: string): (r: string)
    ensures |r| <= |s|
    ensures AllDigits(r)
    ensures AllDigits(s) ==> r == s
    ensures (forall i :: 0 <= i < |s| ==> !IsDigit(s[i])) ==> r == []
  {
    if s == [] then []
    else if IsDigit(s[0]) then [s[0]] + Digits(s[1..])
    else Digits(s[1..])
  }

  /** Filtering distributes over concatenation. */
  lemma {:induction false} DigitsAppend(a: string, b: string)
    ensures Digits(a + b) == Digits(a) + Digits(b)
  {
    if a == [] {
      assert a + b == b;
    } else {
      assert (a + b)[0] == a[0];
      assert (a + b)[1..] == a[1..] + b;
      DigitsAppend(a[1..], b);
    }
  }

  /**
   * `String.length`: the number of UTF-16 code units, so a character above
   * U+FFFF, stored as a surrogate pair, counts twice.
   */
  function Utf16Length(s: string): (r: nat)
    ensures |s| <= r <= 2 * |s|
    ensures (forall i :: 0 <= i < |s| ==> s[i] < '\U{10000}') ==> r == |s|
    ensures (exists i :: 0 <= i < |s| && s[i] >= '\U{10000}') ==> r > |s|
  {
    if s == [] then 0
    else (if s[0] < '\U{10000}' then 1 else 2) + Utf16Length(s[1..])
  }

  /**
   * `Char.isWhitespace` on characters below U+0080: space, tab, line feed,
   * vertical tab, form feed, carriage return and the four information
   * separators U+001C to U+001F.
   */
  predicate IsWhitespace(c: char) {
    c == ' ' || ('\t' <= c <= '\r') || ('\U{1C}' <= c <= '\U{1F}')
  }

  /** `CharSequence.isBlank`: empty or whitespace only. */
  predicate IsBlank(s: string) {
    forall i :: 0 <= i < |s| ==> IsWhitespace(s[i])
  }

  /** `BigInteger.toInt()`: keeps the low 32 bits, read as a signed integer. */
  function ToInt32(n: int): (r: int)
    ensures -TwoTo31 <= r < TwoTo31
    ensures (n - r) % TwoTo32 == 0
    ensures -TwoTo31 <= n < TwoTo31 ==> r == n
  {
    var low := n % TwoTo32;
    if low < TwoTo31 then low else low - TwoTo32
  }

  /**
   * Kotlin's `a % b` on integers: division truncates toward zero, so the
   * remainder takes the sign of `a`. It agrees with Dafny's `%` when `a` is
   * not negative and is odd in `a`.
   */
  function Rem(a: int, b: int): (r: int)
    requires b > 0
    ensures a >= 0 ==> r == a % b
    ensures -a >= 0 ==> -r == (-a) % b
    ensures -b < r < b
  {
    if a >= 0 then a % b else -((-a) % b)
  }

}
