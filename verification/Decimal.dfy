/** Decimal numerals: Python's str() of an integer and int() of a string of digits with an optional sign. */
module Decimal {
  import opened Common

  function Digit(n: nat): (c: char)
    requires n < 10
  {
    (48 + n) as char
  }

  function Digits(n: nat): (s: string)
    ensures s != [] && '0' <= s[0] <= '9'
  {
    if n < 10 then [Digit(n)] else Digits(n / 10) + [Digit(n % 10)]
  }

  function Show(n: int): string {
    if n < 0 then "-" + Digits(-n) else Digits(n)
  }

  function DigitValue(c: char): Option<int> {
    if '0' <= c <= '9' then Some(c as int - 48) else None
  }

  function Value(s: string): Option<int> {
    if s == [] then None
    else
      var last := DigitValue(s[|s| - 1]);
      if last.None? then None
      else if |s| == 1 then last
      else
        var front := Value(s[..|s| - 1]);
        if front.None? then None else Some(10 * front.value + last.value)
  }

  function Signed(negative: bool, v: Option<int>): Option<int> {
    if v.None? then None
    else if negative then Some(-v.value)
    else v
  }

  function Parse(s: string): Option<int> {
    if s != [] && (s[0] == '-' || s[0] == '+') then Signed(s[0] == '-', Value(s[1..]))
    else Signed(false, Value(s))
  }

  lemma {:induction false} ValueDigits(n: nat)
    ensures Value(Digits(n)) == Some(n)
  {
    if n >= 10 {
      var s := Digits(n);
      assert s[..|s| - 1] == Digits(n / 10);
      ValueDigits(n / 10);
    }
  }

  /** A number survives being written as a header string and read back. */
  lemma ParseShow(n: int)
    ensures Parse(Show(n)) == Some(n)
  {
    if n < 0 {
      ValueDigits(-n);
      var digits := Digits(-n);
      assert Show(n) == ['-'] + digits && (['-'] + digits)[1..] == digits;
    } else {
      ValueDigits(n);
      assert Digits(n)[0] != '-' && Digits(n)[0] != '+';
    }
  }

  const DIGITS := "0123456789"

  /** What the numerals are: one digit below ten, one more digit for a further place, a minus sign before a negative. */
  lemma ShowIs(n: nat, d: nat)
    requires d < 10
    ensures Show(d) == [DIGITS[d]]
    ensures n > 0 ==> Show(10 * n + d) == Show(n) + [DIGITS[d]] && Show(-(n as int)) == "-" + Show(n)
  {
    DigitIs(d);
  }

  lemma DigitIs(d: nat)
    requires d < 10
    ensures Digit(d) == DIGITS[d]
  {
  }

  predicate AllDigits(s: string) {
    s != [] && forall k :: 0 <= k < |s| ==> s[k] in DIGITS
  }

  /** int() takes exactly the strings of digits, with at most one sign before them; the sign and the places count. */
  lemma ParseExactly(s: string)
    ensures s == [] || (s[0] != '-' && s[0] != '+') ==> (Parse(s).Some? <==> AllDigits(s))
    ensures s != [] && (s[0] == '-' || s[0] == '+') ==> (Parse(s).Some? <==> AllDigits(s[1..]))
    ensures AllDigits(s) ==> Parse("-" + s) == Some(-Parse(s).value) && Parse("+" + s) == Parse(s)
  {
    ValueExactly(s);
    if s != [] {
      ValueExactly(s[1..]);
    }
    assert ("-" + s)[1..] == s && ("+" + s)[1..] == s;
  }

  lemma {:induction false} ValueExactly(s: string)
    ensures Value(s).Some? <==> AllDigits(s)
  {
    if s != [] {
      var front := s[..|s| - 1];
      ValueExactly(front);
      DigitValueIs(s[|s| - 1]);
      assert s == front + [s[|s| - 1]];
    }
  }

  lemma DigitValueIs(c: char)
    ensures DigitValue(c).Some? <==> c in DIGITS
  {
    assert forall k :: 0 <= k < 10 ==> DIGITS[k] as int == 48 + k;
    if '0' <= c <= '9' {
      assert DIGITS[c as int - 48] == c;
    }
  }
}
