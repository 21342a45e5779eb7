/** src/text.cpp, parse_int64: numbers as they are written in a command. */
module Numbers {
  import opened Basics
  import opened Text

  const LEAST := -0x8000_0000_0000_0000
  const GREATEST := 0x7FFF_FFFF_FFFF_FFFF

  predicate IsDigit(c: char) {
    '0' <= c <= '9'
  }

  predicate AreDigits(text: string) {
    text != "" && forall k | 0 <= k < |text| :: IsDigit(text[k])
  }

  function Value(digits: string): nat
    requires forall k | 0 <= k < |digits| :: IsDigit(digits[k])
  {
    if digits == "" then 0 else
    assert IsDigit(digits[|digits| - 1]);
    10 * Value(digits[..|digits| - 1]) + (digits[|digits| - 1] as int - '0' as int)
  }

  function InRange(n: int): Option<int> {
    if LEAST <= n <= GREATEST then Some(n) else None
  }

  /** std::from_chars on all of the text: a minus or nothing, then digits to the end, and no number too large to hold. */
  function FromChars(text: string): Option<int> {
    if AreDigits(text) then InRange(Value(text))
    else if text != "" && text[0] == '-' && AreDigits(text[1..]) then InRange(0 - Value(text[1..]))
    else None
  }

  /** parse_int64. Blanks around it and a plus in front are allowed. */
  function ParseInt64(text: string): Option<int> {
    var number := Trim(text);
    if number != "" && number[0] == '+' && !(|number| > 1 && number[1] == '-') then FromChars(number[1..])
    else FromChars(number)
  }

  /** What a number is written with. */
  predicate IsOfNumber(c: char) {
    IsDigit(c) || c == '-' || c == '+'
  }

  lemma NumberText(text: string)
    requires ParseInt64(text).Some?
    ensures Trim(text) != "" && forall c | c in Trim(text) :: IsOfNumber(c)
  {
  }

  lemma {:induction false} DigitsRead(n: nat)
    ensures forall k | 0 <= k < |Digits(n)| :: IsDigit(Digits(n)[k])
    ensures Value(Digits(n)) == n
    ensures n > 0 ==> Digits(n) != ""
  {
    if n > 0 {
      DigitsRead(n / 10);
      var front, last := Digits(n / 10), Digit(n % 10);
      assert Digits(n) == front + [last];
      assert (front + [last])[..|front|] == front;
    }
  }

  lemma DecimalText(n: int)
    ensures Decimal(n) != "" && forall c | c in Decimal(n) :: IsOfNumber(c)
    ensures Trim(Decimal(n)) == Decimal(n)
  {
    DigitsRead(if n >= 0 then n else -n);
    TrimmedStays(Decimal(n));
  }

  /** What is printed is read back. */
  lemma ReadDecimal(n: int)
    requires LEAST <= n <= GREATEST
    ensures FromChars(Decimal(n)) == Some(n)
    ensures Decimal(n)[0] != '+'
  {
    hide Digits;
    DigitsRead(if n >= 0 then n else -n);
    if n < 0 {
      assert Decimal(n)[1..] == Digits(-n);
      assert !IsDigit(Decimal(n)[0]);
    } else if n == 0 {
      assert Value("0") == 10 * Value("") + 0 by { assert "0"[..0] == ""; }
    }
  }

  lemma ParsedDecimal(text: string, n: int)
    requires LEAST <= n <= GREATEST && Trim(text) == Decimal(n)
    ensures ParseInt64(text) == Some(n)
  {
    ReadDecimal(n);
  }
}
