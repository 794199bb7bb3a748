/** Decimal numerals, as `str(n)` and f-strings print them and `int(text)` reads them. */
module Decimals {
  import opened Options

  predicate IsDigit(c: char) {
    '0' <= c <= '9'
  }

  function DigitChar(d: nat): (c: char)
    requires d < 10
    ensures IsDigit(c) && DigitValue(c) == d
  {
    ('0' as int + d) as char
  }

  function DigitValue(c: char): (d: nat)
    requires IsDigit(c)
    ensures d < 10
  {
    c as int - '0' as int
  }

  function Print(n: nat): (text: string)
    ensures text != [] && forall c | c in text :: IsDigit(c)
  {
    if n < 10 then [DigitChar(n)] else Print(n / 10) + [DigitChar(n % 10)]
  }

  /** Reading accepts leading zeros, as `int` does. */
  function Read(text: string): Option<nat> {
    if text == [] || exists c | c in text :: !IsDigit(c) then None else Some(Value(text))
  }

  function Value(text: string): nat
    requires forall c | c in text :: IsDigit(c)
  {
    if text == [] then 0
    else
      var init := text[..|text| - 1];
      assert forall c | c in init :: c in text;
      10 * Value(init) + DigitValue(text[|text| - 1])
  }

  lemma {:induction false} ReadPrint(n: nat)
    ensures Read(Print(n)) == Some(n)
  {
    var text := Print(n);
    assert text[|text| - 1] in text;
    if n >= 10 {
      ReadPrint(n / 10);
      assert text[..|text| - 1] == Print(n / 10);
      assert Value(text[..|text| - 1]) == n / 10;
    } else {
      assert Value(text[..|text| - 1]) == 0;
      assert text[0] == DigitChar(n);
    }
  }

  lemma PrintInjective(m: nat, n: nat)
    requires Print(m) == Print(n)
    ensures m == n
  {
    ReadPrint(m);
    ReadPrint(n);
  }
}
