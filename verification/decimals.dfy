/** Numbers as decimal text, as `format!` writes them and `str::parse` reads them. */
module Decimals {

  function Digit(d: nat): char
    requires d < 10
  {
    "0123456789"[d]
  }

  function Decimal(n: nat): string {
    if n < 10 then [Digit(n)] else Decimal(n / 10) + [Digit(n % 10)]
  }

  lemma {:induction false} DecimalHasNoColon(n: nat)
    ensures ':' !in Decimal(n) && Decimal(n) != ""
  {
    if n >= 10 {
      DecimalHasNoColon(n / 10);
    }
  }

  lemma DigitInjective(a: nat, b: nat)
    requires a < 10 && b < 10 && Digit(a) == Digit(b)
    ensures a == b
  {
  }

  lemma {:induction false} DecimalInjective(m: nat, n: nat)
    requires Decimal(m) == Decimal(n)
    ensures m == n
  {
    DecimalHasNoColon(m / 10);
    DecimalHasNoColon(n / 10);
    hide Digit;
    var a, b := Decimal(m), Decimal(n);
    assert a[|a| - 1] == Digit(m % 10) && b[|b| - 1] == Digit(n % 10);
    DigitInjective(m % 10, n % 10);
    assert a[..|a| - 1] == b[..|b| - 1];
    if m >= 10 && n >= 10 {
      assert a[..|a| - 1] == Decimal(m / 10) && b[..|b| - 1] == Decimal(n / 10);
      DecimalInjective(m / 10, n / 10);
    }
  }

  // ---------------------------------------------------------------------------------------------
  // Reading digits
  // ---------------------------------------------------------------------------------------------

  predicate IsDigit(c: char) {
    '0' <= c <= '9'
  }

  predicate AllDigits(text: string) {
    text != "" && forall c | c in text :: IsDigit(c)
  }

  function DigitValue(c: char): nat
    requires IsDigit(c)
  {
    c as int - '0' as int
  }

  function DigitsValue(text: string): nat
    requires forall c | c in text :: IsDigit(c)
  {
    if text == "" then 0
    else DigitsValue(text[..|text| - 1]) * 10 + DigitValue(text[|text| - 1])
  }

  function Zeros(n: nat): string {
    seq(n, _ => '0')
  }

  lemma DigitReadsBack(d: nat)
    requires d < 10
    ensures IsDigit(Digit(d)) && DigitValue(Digit(d)) == d
  {
  }

  lemma DigitOfValue(c: char)
    requires IsDigit(c)
    ensures DigitValue(c) < 10 && Digit(DigitValue(c)) == c
  {
    assert "0123456789"[c as int - '0' as int] == c;
  }

  lemma {:induction false} ZerosAreNothing(n: nat, text: string)
    requires forall c | c in text :: IsDigit(c)
    ensures forall c | c in Zeros(n) + text :: IsDigit(c)
    ensures DigitsValue(Zeros(n) + text) == DigitsValue(text)
    decreases |text|, n
  {
    var whole := Zeros(n) + text;
    if text != "" {
      ZerosAreNothing(n, text[..|text| - 1]);
      assert whole[..|whole| - 1] == Zeros(n) + text[..|text| - 1];
    } else if n > 0 {
      ZerosAreNothing(n - 1, text);
      assert whole[..|whole| - 1] == Zeros(n - 1) + text;
    }
  }

  lemma {:induction false} DecimalReadsBack(n: nat)
    ensures AllDigits(Decimal(n)) && DigitsValue(Decimal(n)) == n
  {
    hide Digit, DigitValue;
    DigitReadsBack(n % 10);
    var text := Decimal(n);
    if n < 10 {
      assert text[..|text| - 1] == "";
    } else {
      DecimalReadsBack(n / 10);
      assert text[..|text| - 1] == Decimal(n / 10);
    }
  }

  lemma DecimalGrows(v: nat, d: nat)
    requires d < 10
    ensures Decimal(v * 10 + d) == if v == 0 then [Digit(d)] else Decimal(v) + [Digit(d)]
  {
  }

  lemma FrontDigits(text: string)
    requires AllDigits(text)
    ensures var last := |text| - 1;
      IsDigit(text[last]) && text == text[..last] + [text[last]] && (last > 0 ==> AllDigits(text[..last]))
  {
  }

  lemma ValueOfLast(text: string)
    requires AllDigits(text)
    ensures var last := |text| - 1;
      && IsDigit(text[last]) && (forall c | c in text[..last] :: IsDigit(c))
      && DigitsValue(text) == DigitsValue(text[..last]) * 10 + DigitValue(text[last])
      && (last == 0 ==> DigitsValue(text[..last]) == 0)
  {
  }

  /** The last digit of a text, in its value and in the decimal text of that value. */
  lemma LastDigit(text: string)
    requires AllDigits(text)
    ensures var last := |text| - 1;
      && (forall c | c in text[..last] :: IsDigit(c))
      && var v := DigitsValue(text[..last]);
      && (last == 0 ==> v == 0)
      && Decimal(DigitsValue(text)) == if v == 0 then [text[last]] else Decimal(v) + [text[last]]
  {
    ValueOfLast(text);
    var last := |text| - 1;
    DigitOfValue(text[last]);
    GrownDecimal(DigitsValue(text[..last]), text[last], DigitsValue(text));
  }

  lemma GrownDecimal(v: nat, c: char, w: nat)
    requires IsDigit(c) && w == v * 10 + DigitValue(c)
    ensures Decimal(w) == if v == 0 then [c] else Decimal(v) + [c]
  {
    DigitOfValue(c);
    DecimalGrows(v, DigitValue(c));
  }

  /** One more digit behind zeros and a decimal text. */
  lemma AppendDigit(n: nat, v: nat, c: char)
    ensures Zeros(n) + Decimal(v) + [c] == if v == 0 then Zeros(n + 1) + [c] else Zeros(n) + (Decimal(v) + [c])
  {
    ZeroDigit();
    ZerosSnoc(n);
    hide Zeros, Decimal;
    Regroup(Zeros(n), Decimal(v), [c]);
  }

  /** Digits are the decimal text of their value behind some zeros. */
  lemma {:induction false} DigitsAreADecimal(text: string)
    requires AllDigits(text)
    ensures exists n: nat :: text == Zeros(n) + Decimal(DigitsValue(text))
  {
    var front, c := text[..|text| - 1], text[|text| - 1];
    FrontDigits(text);
    LastDigit(text);
    assert Zeros(0) + [c] == [c];
    hide Zeros, Decimal, DigitsValue, AllDigits;
    if front != "" {
      DigitsAreADecimal(front);
      var n: nat :| front == Zeros(n) + Decimal(DigitsValue(front));
      AppendDigit(n, DigitsValue(front), c);
    }
  }

  lemma Regroup(a: string, b: string, c: string)
    ensures a + b + c == a + (b + c)
  {
  }

  lemma ZerosSnoc(n: nat)
    ensures Zeros(n) + "0" == Zeros(n + 1)
  {
  }

  lemma ZeroDigit()
    ensures Decimal(0) == "0"
  {
  }

  /** The text of a number: an optional plus sign, zeros, and its decimal digits. */
  ghost predicate IsNumberText(text: string, n: nat) {
    || (exists z: nat :: text == Zeros(z) + Decimal(n))
    || (exists z: nat :: text == "+" + Zeros(z) + Decimal(n))
  }
}
