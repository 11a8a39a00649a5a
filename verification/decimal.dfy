/** Decimal text of 64-bit integers: `fmt.Sprintf("%v", n)` for an int64 and
    `strconv.Atoi` on a 64-bit platform. Login writes the user and role ids into the
    token claims with the first; the admin gate reads the role id back with the second. */
module Decimal {
  import opened Errors

  const Int64Min: int := -0x8000_0000_0000_0000
  const Int64Max: int := 0x7fff_ffff_ffff_ffff
  const Uint64Max: int := 0xffff_ffff_ffff_ffff

  predicate IsDigit(c: char) { '0' <= c <= '9' }

  predicate AllDigits(s: string) { forall i :: 0 <= i < |s| ==> IsDigit(s[i]) }

  function DigitChar(d: int): char
    requires 0 <= d < 10
  {
    "0123456789"[d]
  }

  /** The value of a string of decimal digits, most significant first. */
  function DigitsValue(s: string): nat
    requires AllDigits(s)
  {
    if s == [] then 0
    else DigitsValue(s[..|s| - 1]) * 10 + (s[|s| - 1] as int - '0' as int)
  }

  /** The shortest decimal digits of a natural number. */
  function Digits(n: nat): string
  {
    if n < 10 then [DigitChar(n)] else Digits(n / 10) + [DigitChar(n % 10)]
  }

  /** `fmt.Sprintf("%v", n)` for an int64 `n`. */
  function Itoa(n: int): string
  {
    if n < 0 then "-" + Digits(-n) else Digits(n)
  }

  /** The digits after an optional leading sign. */
  function Unsigned(s: string): string
  {
    if s != [] && (s[0] == '+' || s[0] == '-') then s[1..] else s
  }

  /** The syntax `strconv.Atoi` accepts: an optional sign, then at least one decimal
      digit and nothing else. */
  predicate Numeral(s: string)
  {
    Unsigned(s) != [] && AllDigits(Unsigned(s))
  }

  /** The longest run of decimal digits at the start of `s`. */
  function LeadingDigits(s: string): (r: string)
    ensures AllDigits(r) && r <= s
    ensures r == s || !IsDigit(s[|r|])
  {
    if s != [] && IsDigit(s[0]) then [s[0]] + LeadingDigits(s[1..]) else []
  }

  /** `strconv.Atoi(s)` on a 64-bit platform: a syntax error, a range error outside the
      int64 range, or the value. The digits are read from the left, and the reading stops
      with a range error as soon as the digits read exceed the uint64 range, before any
      later character that is not a digit is seen. */
  function Atoi(s: string): Result<int>
  {
    if !Numeral(s) then
      if DigitsValue(LeadingDigits(Unsigned(s))) > Uint64Max
      then Fail(Error(Uncoded, "strconv.Atoi: parsing \"" + s + "\": value out of range"))
      else Fail(Error(Uncoded, "strconv.Atoi: parsing \"" + s + "\": invalid syntax"))
    else
      var magnitude := DigitsValue(Unsigned(s));
      var v: int := if s[0] == '-' then 0 - magnitude as int else magnitude;
      if v < Int64Min || v > Int64Max then Fail(Error(Uncoded, "strconv.Atoi: parsing \"" + s + "\": value out of range"))
      else Ok(v)
  }

  /** The leading digits of a digit run followed by a text that starts with a non-digit
      are that run. */
  lemma {:induction false} LeadingDigitsOfRun(d: string, t: string)
    requires AllDigits(d) && t != [] && !IsDigit(t[0])
    ensures LeadingDigits(d + t) == d
  {
    if d != [] {
      assert (d + t)[1..] == d[1..] + t;
      LeadingDigitsOfRun(d[1..], t);
    } else {
      assert d + t == t;
    }
  }

  /** Digits past the uint64 range followed by a stray character are a range error, not a
      syntax error: the overflow is met first. */
  lemma OverflowBeforeSyntax(d: string, t: string)
    requires d != [] && AllDigits(d) && DigitsValue(d) > Uint64Max
    requires t != [] && !IsDigit(t[0])
    ensures Atoi(d + t) == Fail(Error(Uncoded, "strconv.Atoi: parsing \"" + (d + t) + "\": value out of range"))
  {
    var s := d + t;
    assert s[0] == d[0] && IsDigit(s[0]);
    assert Unsigned(s) == s;
    assert s[|d|] == t[0];
    LeadingDigitsOfRun(d, t);
  }

  lemma {:induction false} DigitsWellFormed(n: nat)
    ensures |Digits(n)| > 0 && AllDigits(Digits(n)) && DigitsValue(Digits(n)) == n
  {
    if n >= 10 {
      DigitsWellFormed(n / 10);
      var d := Digits(n / 10);
      assert Digits(n) == d + [DigitChar(n % 10)];
      assert Digits(n)[..|Digits(n)| - 1] == d;
    }
  }

  /** Reading back the decimal text of any int64 gives the same number. */
  lemma AtoiItoa(n: int)
    requires Int64Min <= n <= Int64Max
    ensures Atoi(Itoa(n)) == Ok(n)
  {
    var s := Itoa(n);
    if n < 0 {
      DigitsWellFormed(-n);
      assert s[0] == '-' && s[1..] == Digits(-n);
      assert Unsigned(s) == Digits(-n);
    } else {
      DigitsWellFormed(n);
      assert IsDigit(s[0]);
      assert Unsigned(s) == Digits(n);
    }
  }
}
