/** Decimal printing and reading of strconv.Itoa and strconv.Atoi, on a 64-bit int. */
module Decimal {
  const MAX_INT := 0x7FFF_FFFF_FFFF_FFFF

  predicate IsDigit(c: char) {
    '0' <= c <= '9'
  }

  predicate AllDigits(s: string) {
    forall c | c in s :: IsDigit(c)
  }

  function DigitOf(d: nat): char
    requires d < 10
  {
    '0' + d as char
  }

  function DigitValue(c: char): nat
    requires IsDigit(c)
  {
    c as int - '0' as int
  }

  /** Itoa of a non-negative number. */
  function Itoa(n: nat): string {
    if n < 10 then [DigitOf(n)] else Itoa(n / 10) + [DigitOf(n % 10)]
  }

  function Value(digits: string): nat
    requires AllDigits(digits)
  {
    if digits == [] then 0
    else 10 * Value(digits[..|digits| - 1]) + DigitValue(digits[|digits| - 1])
  }

  /** Outside the int range Atoi reports an error and returns the nearest int. */
  datatype Number = Exact(value: int) | Clipped(value: int) | Malformed

  function Unsigned(sign: int, digits: string): Number {
    if digits == [] || !AllDigits(digits) then Malformed
    else
      var n := sign * Value(digits);
      if n > MAX_INT then Clipped(MAX_INT)
      else if n < -MAX_INT - 1 then Clipped(-MAX_INT - 1)
      else Exact(n)
  }

  function Atoi(s: string): Number {
    if s != [] && s[0] == '-' then Unsigned(-1, s[1..])
    else if s != [] && s[0] == '+' then Unsigned(1, s[1..])
    else Unsigned(1, s)
  }

  /** Printing yields digits that read back as the number. */
  lemma {:induction false} ItoaValue(n: nat)
    ensures Itoa(n) != [] && AllDigits(Itoa(n)) && Value(Itoa(n)) == n
  {
    if n >= 10 {
      ItoaValue(n / 10);
      assert Itoa(n)[..|Itoa(n)| - 1] == Itoa(n / 10);
    }
  }

  /** The print/parse inverse, on every length or index an int can hold. */
  lemma AtoiOfItoa(n: nat)
    requires n <= MAX_INT
    ensures Atoi(Itoa(n)) == Exact(n)
  {
    ItoaValue(n);
    assert Itoa(n)[0] in Itoa(n);
  }

  /** With or without a sign, digits are read as their value or the nearest int. */
  lemma AtoiIs(digits: string)
    requires digits != [] && AllDigits(digits)
    ensures Atoi(digits) == Atoi("+" + digits) ==
            if Value(digits) <= 0x7FFF_FFFF_FFFF_FFFF then Exact(Value(digits)) else Clipped(0x7FFF_FFFF_FFFF_FFFF)
    ensures Atoi("-" + digits) ==
            if Value(digits) <= 0x8000_0000_0000_0000 then Exact(0 - Value(digits)) else Clipped(-0x8000_0000_0000_0000)
  {
    assert IsDigit(digits[0]);
    assert ("+" + digits)[1..] == digits && ("-" + digits)[1..] == digits;
  }

  /** Everything else is malformed. */
  lemma MalformedIff(s: string)
    ensures Atoi(s) == Malformed <==>
            !(s != [] && AllDigits(s)) && !(|s| > 1 && (s[0] == '+' || s[0] == '-') && AllDigits(s[1..]))
  {
    if s != [] && (s[0] == '+' || s[0] == '-') {
      assert s[0] in s && !IsDigit(s[0]);
    }
  }

  /** More digits after a positive number make it larger. */
  lemma {:induction false} MoreDigits(s: string, more: string)
    requires AllDigits(s) && AllDigits(more)
    ensures AllDigits(s + more)
    ensures Value(s + more) >= Value(s)
    ensures more != [] && Value(s) > 0 ==> Value(s + more) > Value(s)
  {
    if more == [] {
      assert s + more == s;
    } else {
      var init := more[..|more| - 1];
      MoreDigits(s, init);
      assert (s + more)[..|s + more| - 1] == s + init;
    }
  }

  /** The digits at the start of a text. */
  function DigitRun(s: string): (digits: string)
    ensures AllDigits(digits) && digits <= s
    ensures |digits| < |s| ==> !IsDigit(s[|digits|])
  {
    if s == [] || !IsDigit(s[0]) then [] else [s[0]] + DigitRun(s[1..])
  }

  lemma {:induction false} DigitRunOf(digits: string, rest: string)
    requires AllDigits(digits)
    ensures DigitRun(digits + rest) == digits + DigitRun(rest)
  {
    if digits == [] {
      assert digits + rest == rest;
    } else {
      assert (digits + rest)[1..] == digits[1..] + rest;
      DigitRunOf(digits[1..], rest);
    }
  }
}
