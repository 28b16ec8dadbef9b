/**
 * The price every meal derives from its catalog id (the `priceUsd` default
 * and the `priceInr` getter of `Meal`). The digits of the id are read as one
 * decimal number, truncated to a signed 32-bit integer, reduced with Kotlin's
 * `% 16`, shifted by 5 and multiplied by the fixed rate 85.
 */
module Price {
  import opened KotlinText

  const BaseUsd: int := 5
  const PriceSpread: int := 16
  const InrPerUsd: int := 85

  function Pow10(k: nat): (r: nat)
    ensures r >= 1
  {
    if k == 0 then 1 else 10 * Pow10(k - 1)
  }

  /** The number a string of decimal digits denotes (most significant digit first). */
  function DigitValue(d: string): (r: nat)
    requires AllDigits(d)
    ensures r < Pow10(|d|)
  {
    if d == [] then 0
    else 10 * DigitValue(d[..|d| - 1]) + (d[|d| - 1] as int - '0' as int)
  }

  /**
   * `id.filter { it.isDigit() }.toBigIntegerOrNull()?.toInt() ?: 0`: no digits
   * give 0, otherwise the digit value keeps only its low 32 bits.
   */
  function ParsedId(id: string): (r: int)
    ensures -TwoTo31 <= r < TwoTo31
    ensures Digits(id) == [] ==> r == 0
    ensures DigitValue(Digits(id)) < TwoTo31 ==> r == DigitValue(Digits(id))
  {
    var ds := Digits(id);
    if ds == [] then 0 else ToInt32(DigitValue(ds))
  }

  /** `Meal.priceUsd`: 5 plus the parsed id modulo 16, with Kotlin's signed remainder. */
  function PriceUsd(id: string): (r: int)
    ensures -10 <= r <= 20
    ensures Digits(id) == [] ==> r == BaseUsd
    ensures DigitValue(Digits(id)) < TwoTo31 ==>
              r == BaseUsd + DigitValue(Digits(id)) % PriceSpread && BaseUsd <= r <= 20
  {
    BaseUsd + Rem(ParsedId(id), PriceSpread)
  }

  /** `Meal.priceInr`: the dollar price at 85 rupees per dollar. */
  function PriceInr(id: string): (r: int)
    ensures r % InrPerUsd == 0 && r / InrPerUsd == PriceUsd(id)
    ensures -850 <= r <= 1700
    ensures DigitValue(Digits(id)) < TwoTo31 ==> 425 <= r <= 1700
  {
    PriceUsd(id) * InrPerUsd
  }

  /** The two worked examples: a five-digit id and an id without digits. */
  lemma PriceExamples()
    ensures PriceUsd("52772") == 9 && PriceInr("52772") == 765
    ensures PriceUsd("abc") == 5 && PriceInr("abc") == 425
  {
    assert Digits("52772") == "52772";
    DigitValueSnoc("", '5');
    assert "" + ['5'] == "5";
    DigitValueSnoc("5", '2');
    assert "5" + ['2'] == "52";
    DigitValueSnoc("52", '7');
    assert "52" + ['7'] == "527";
    DigitValueSnoc("527", '7');
    assert "527" + ['7'] == "5277";
    DigitValueSnoc("5277", '2');
    assert "5277" + ['2'] == "52772";
    assert Digits("abc") == [];
  }

  /** Appending a digit multiplies the value by ten and adds the digit. */
  lemma DigitValueSnoc(d: string, c: char)
    requires AllDigits(d) && IsDigit(c)
    ensures AllDigits(d + [c])
    ensures DigitValue(d + [c]) == 10 * DigitValue(d) + (c as int - '0' as int)
  {
    assert (d + [c])[..|d|] == d;
  }

  lemma {:induction false} Pow10Monotone(j: nat, k: nat)
    requires j <= k
    ensures Pow10(j) <= Pow10(k)
  {
    if j < k {
      Pow10Monotone(j, k - 1);
    }
  }

  /**
   * Every id with at most nine digits stays clear of the 32-bit truncation: its price lies in [5, 20] dollars and
   * [425, 1700] rupees.
   */
  lemma ShortIdPriceInRange(id: string)
    requires |Digits(id)| <= 9
    ensures PriceUsd(id) == BaseUsd + DigitValue(Digits(id)) % PriceSpread
    ensures 5 <= PriceUsd(id) <= 20 && 425 <= PriceInr(id) <= 1700
  {
    Pow10Monotone(|Digits(id)|, 9);
    assert Pow10(9) == 1_000_000_000;
  }

  /** Two ids with the same digits in the same order have the same prices. */
  lemma SameDigitsSamePrice(a: string, b: string)
    requires Digits(a) == Digits(b)
    ensures PriceUsd(a) == PriceUsd(b) && PriceInr(a) == PriceInr(b)
  {
  }

  /** Only the digit subsequence matters: inserting characters that are not digits keeps the price. */
  lemma NonDigitsIgnored(a: string, b: string, c: string)
    requires Digits(c) == []
    ensures PriceUsd(a + c + b) == PriceUsd(a + b)
    ensures PriceInr(a + c + b) == PriceInr(a + b)
  {
    DigitsAppend(a, c);
    DigitsAppend(a + c, b);
    DigitsAppend(a, b);
    assert Digits(a) + Digits(c) == Digits(a);
  }

  /**
   * An id whose digits reach 2^31 leaves the range: "2147483649" truncates to
   * -2147483647, whose Kotlin remainder by 16 is -15, so the price is -10.
   */
  lemma WrappedIdPrice()
    ensures PriceUsd("2147483649") == -10 && PriceInr("2147483649") == -850
  {
    assert Digits("2147483649") == "2147483649";
    WrappedIdValue();
    assert ToInt32(2147483649) == -2147483647;
    assert ParsedId("2147483649") == -2147483647;
    assert Rem(-2147483647, 16) == -15;
  }

  lemma WrappedIdValue()
    ensures DigitValue("2147483649") == 2147483649
  {
    WrappedIdHighDigits();
    DigitValueSnoc("21474", '8');
    assert "21474" + ['8'] == "214748";
    DigitValueSnoc("214748", '3');
    assert "214748" + ['3'] == "2147483";
    DigitValueSnoc("2147483", '6');
    assert "2147483" + ['6'] == "21474836";
    DigitValueSnoc("21474836", '4');
    assert "21474836" + ['4'] == "214748364";
    DigitValueSnoc("214748364", '9');
    assert "214748364" + ['9'] == "2147483649";
  }

  lemma WrappedIdHighDigits()
    ensures DigitValue("21474") == 21474
  {
    DigitValueSnoc("", '2');
    assert "" + ['2'] == "2";
    DigitValueSnoc("2", '1');
    assert "2" + ['1'] == "21";
    DigitValueSnoc("21", '4');
    assert "21" + ['4'] == "214";
    DigitValueSnoc("214", '7');
    assert "214" + ['7'] == "2147";
    DigitValueSnoc("2147", '4');
    assert "2147" + ['4'] == "21474";
  }

}
