/** The two conversions the pull-request handlers use between pull-request
    numbers and their decimal text: strconv.Atoi (parse) and strconv.Itoa /
    fmt's %d (render), for Go's 64-bit `int`. */
module Strconv {
  import opened Base

  const MinInt: int := -0x8000_0000_0000_0000
  const MaxInt: int := 0x7FFF_FFFF_FFFF_FFFF

  predicate IsDigit(c: char) {
    '0' <= c <= '9'
  }

  predicate AllDigits(s: string) {
    forall i | 0 <= i < |s| :: IsDigit(s[i])
  }

  /** The value of a string of decimal digits, most significant first. */
  function DecimalValue(s: string): nat
    requires AllDigits(s)
  {
    if s == [] then 0
    else 10 * DecimalValue(s[..|s| - 1]) + (s[|s| - 1] as int - '0' as int)
  }

  function DigitChar(d: nat): (c: char)
    requires d < 10
    ensures IsDigit(c) && c as int - '0' as int == d
  {
    ('0' as int + d) as char
  }

  /** The shortest decimal text of `n`. */
  function Digits(n: nat): string
  {
    if n < 10 then [DigitChar(n)] else Digits(n / 10) + [DigitChar(n % 10)]
  }

  /** strconv.Atoi: an optional sign, then at least one decimal digit, and
      the value must fit a 64-bit int; anything else is rejected. */
  function Atoi(s: string): (r: Result<int, Error>)
    ensures r.Ok? ==> MinInt <= r.value <= MaxInt
    ensures r.Err? ==> r.error == InvalidInteger(s)
  {
    var unsigned := if |s| > 0 && (s[0] == '-' || s[0] == '+') then s[1..] else s;
    if unsigned == [] || !AllDigits(unsigned) then Err(InvalidInteger(s))
    else
      var magnitude: int := DecimalValue(unsigned);
      var n := if s[0] == '-' then -magnitude else magnitude;
      if n < MinInt || MaxInt < n then Err(InvalidInteger(s)) else Ok(n)
  }

  /** strconv.Itoa, also what fmt prints for %d. */
  function Itoa(n: int): (s: string)
    ensures n >= 0 ==> |s| > 0 && AllDigits(s) && DecimalValue(s) == n
    ensures n >= 0 ==> s == "0" || s[0] != '0'
    ensures n < 0 ==> |s| > 1 && s[0] == '-' && AllDigits(s[1..]) && DecimalValue(s[1..]) == -n
    ensures n < 0 ==> s[1] != '0'
  {
    if n < 0 then
      DigitsValue(-n);
      var s := "-" + Digits(-n);
      assert s[1..] == Digits(-n);
      s
    else
      DigitsValue(n);
      Digits(n)
  }

  lemma {:induction false} DigitsValue(n: nat)
    ensures |Digits(n)| > 0 && AllDigits(Digits(n))
    ensures DecimalValue(Digits(n)) == n
    ensures Digits(n) == "0" || Digits(n)[0] != '0'
  {
    if n >= 10 {
      DigitsValue(n / 10);
      var s := Digits(n);
      assert s[..|s| - 1] == Digits(n / 10);
      assert s[0] == Digits(n / 10)[0];
    }
  }

  /** Digits alone, or `+` then digits, are accepted with their decimal
      value, as long as that value fits. */
  lemma AtoiOfDigits(sign: string, d: string)
    requires sign == "" || sign == "+"
    requires d != [] && AllDigits(d) && DecimalValue(d) <= MaxInt
    ensures Atoi(sign + d) == Ok(DecimalValue(d))
  {
    var s := sign + d;
    if sign == "" {
      assert s == d && IsDigit(s[0]);
    } else {
      assert s[1..] == d;
    }
  }

  /** A `-` followed by digits alone is accepted, negated, as long as the
      value fits. */
  lemma AtoiOfNegativeDigits(d: string)
    requires d != [] && AllDigits(d) && DecimalValue(d) <= -MinInt
    ensures Atoi("-" + d) == Ok(-(DecimalValue(d) as int))
  {
    assert ("-" + d)[1..] == d;
  }

  /** An optional sign and digits whose signed value does not fit a 64-bit
      int are rejected (Go's range error). */
  lemma AtoiRejectsOutOfRange(sign: string, d: string)
    requires sign == "" || sign == "+" || sign == "-"
    requires d != [] && AllDigits(d)
    requires (if sign == "-" then -(DecimalValue(d) as int) else DecimalValue(d) as int) < MinInt ||
             MaxInt < (if sign == "-" then -(DecimalValue(d) as int) else DecimalValue(d) as int)
    ensures Atoi(sign + d) == Err(InvalidInteger(sign + d))
  {
    var s := sign + d;
    if sign == "" {
      assert s == d && IsDigit(s[0]);
    } else {
      assert s[1..] == d;
    }
  }

  /** A text with no digit after the optional sign is rejected. */
  lemma AtoiRejectsNoDigits(s: string)
    requires s == [] || s == "-" || s == "+"
    ensures Atoi(s) == Err(InvalidInteger(s))
  {
  }

  /** A character other than a digit anywhere but in the leading sign
      position makes the text rejected. */
  lemma AtoiRejectsNonDigit(s: string, i: nat)
    requires i < |s| && !IsDigit(s[i])
    requires !(i == 0 && (s[0] == '-' || s[0] == '+'))
    ensures Atoi(s) == Err(InvalidInteger(s))
  {
    if |s| > 0 && (s[0] == '-' || s[0] == '+') {
      assert s[1..][i - 1] == s[i];
    }
  }

  /** Rendering a number and parsing it back gives the number: the text sent
      to GitHub for a pull-request number names that same number. */
  lemma AtoiItoa(n: int)
    requires MinInt <= n <= MaxInt
    ensures Atoi(Itoa(n)) == Ok(n)
  {
    var s := Itoa(n);
    if n >= 0 {
      assert IsDigit(s[0]);
    }
  }
}
