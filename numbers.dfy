/** Decimal integers as Go's `strconv.Atoi` reads them and `fmt.Sprintf("%d")`
    writes them, on a platform where `int` is 64 bits wide. */
module Numbers {

  import opened Wrappers

  const MinInt: int := -0x8000_0000_0000_0000
  const MaxInt: int := 0x7FFF_FFFF_FFFF_FFFF

  predicate IsDigit(c: char) {
    '0' <= c <= '9'
  }

  predicate AllDigits(s: string) {
    forall i :: 0 <= i < |s| ==> IsDigit(s[i])
  }

  /** The value of a string of decimal digits, most significant first. */
  function DigitsValue(s: string): nat
    requires AllDigits(s)
  {
    if s == [] then 0
    else DigitsValue(s[..|s| - 1]) * 10 + (s[|s| - 1] as int - '0' as int)
  }

  /** The text after an optional leading `+` or `-`. */
  function Unsigned(s: string): string {
    if s != [] && (s[0] == '-' || s[0] == '+') then s[1..] else s
  }

  /** `v` negated when the text starts with `-`. */
  function Signed(s: string, v: nat): int {
    if s != [] && s[0] == '-' then -(v as int) else v
  }

  /** `strconv.Atoi`: an optional sign, then one or more decimal digits
      (leading zeros allowed, nothing else), whose value fits in an `int`. */
  function Atoi(s: string): (r: Option<int>)
    ensures r.Some? <==> Unsigned(s) != [] && AllDigits(Unsigned(s))
                         && MinInt <= Signed(s, DigitsValue(Unsigned(s))) <= MaxInt
    ensures r.Some? ==> r.value == Signed(s, DigitsValue(Unsigned(s)))
    ensures r.Some? ==> s != [] && (IsDigit(s[0]) || s[0] == '-' || s[0] == '+')
  {
    var signed := s != [] && (s[0] == '-' || s[0] == '+');
    var digits := if signed then s[1..] else s;
    if digits == [] || !AllDigits(digits) then None
    else
      var v: int := if signed && s[0] == '-' then -(DigitsValue(digits) as int) else DigitsValue(digits);
      if MinInt <= v <= MaxInt then Some(v) else None
  }

  function DigitChar(d: nat): (c: char)
    requires d < 10
    ensures IsDigit(c) && c as int - '0' as int == d
  {
    ('0' as int + d) as char
  }

  /** The shortest decimal digits of `n`. */
  function NatDigits(n: nat): (s: string)
    ensures s != [] && AllDigits(s)
    ensures |s| > 1 ==> s[0] != '0'
  {
    if n < 10 then [DigitChar(n)] else NatDigits(n / 10) + [DigitChar(n % 10)]
  }

  /** `fmt.Sprintf("%d", n)`. */
  function Itoa(n: int): string {
    if n < 0 then "-" + NatDigits(-n) else NatDigits(n)
  }

  lemma {:induction false} DigitsValueOfNatDigits(n: nat)
    ensures DigitsValue(NatDigits(n)) == n
  {
    if n >= 10 {
      var s := NatDigits(n);
      assert s[..|s| - 1] == NatDigits(n / 10);
      DigitsValueOfNatDigits(n / 10);
    }
  }

  /** Reading back what `%d` wrote gives the same integer. */
  lemma AtoiOfItoa(n: int)
    requires MinInt <= n <= MaxInt
    ensures Atoi(Itoa(n)) == Some(n)
  {
    if n < 0 {
      var d := NatDigits(-n);
      DigitsValueOfNatDigits(-n);
      AtoiMinus(d);
    } else {
      var d := NatDigits(n);
      DigitsValueOfNatDigits(n);
      assert IsDigit(d[0]) && Unsigned(d) == d;
    }
  }

  /** Leading zeros do not change the value of a digit string. */
  lemma {:induction false} DigitsValueLeadingZeros(z: nat, s: string)
    requires AllDigits(s)
    ensures AllDigits(Zeros(z) + s) && DigitsValue(Zeros(z) + s) == DigitsValue(s)
    decreases |s|
  {
    var t := Zeros(z) + s;
    if s == [] {
      assert t == Zeros(z);
      ZerosValue(z);
    } else {
      assert t[..|t| - 1] == Zeros(z) + s[..|s| - 1];
      DigitsValueLeadingZeros(z, s[..|s| - 1]);
    }
  }

  function Zeros(z: nat): (s: string)
    ensures |s| == z && AllDigits(s)
    ensures forall i :: 0 <= i < z ==> s[i] == '0'
  {
    if z == 0 then "" else Zeros(z - 1) + "0"
  }

  lemma {:induction false} ZerosValue(z: nat)
    ensures DigitsValue(Zeros(z)) == 0
  {
    if z > 0 {
      assert Zeros(z)[..z - 1] == Zeros(z - 1);
      ZerosValue(z - 1);
    }
  }

  /** `Atoi` accepts leading zeros: `"007"` reads as 7. */
  lemma AtoiLeadingZeros(z: nat, n: nat)
    requires n <= MaxInt
    ensures Atoi(Zeros(z) + NatDigits(n)) == Some(n)
  {
    DigitsValueOfNatDigits(n);
    DigitsValueLeadingZeros(z, NatDigits(n));
    var s := Zeros(z) + NatDigits(n);
    assert IsDigit(s[0]);
  }

  /** A `+` in front of digits changes nothing. */
  lemma AtoiPlus(d: string)
    requires d != [] && AllDigits(d)
    ensures Atoi("+" + d) == Atoi(d)
  {
    assert ("+" + d)[0] == '+' && ("+" + d)[1..] == d;
    assert Unsigned("+" + d) == d && Unsigned(d) == d;
  }

  /** A `-` in front of digits negates their value, which may then reach
      the smallest `int`. */
  lemma AtoiMinus(d: string)
    requires d != [] && AllDigits(d)
    ensures Atoi("-" + d) == if DigitsValue(d) <= MaxInt + 1 then Some(-(DigitsValue(d) as int)) else None
  {
    assert ("-" + d)[0] == '-' && ("-" + d)[1..] == d;
    assert Unsigned("-" + d) == d;
  }

  /** `Atoi` reads an explicit sign: `"+7"` is 7 and `"-7"` is -7, down to
      the smallest `int`; a value past the largest `int` is refused. */
  lemma AtoiSigned(n: nat)
    ensures n <= MaxInt ==> Atoi("+" + NatDigits(n)) == Some(n)
    ensures n <= MaxInt + 1 ==> Atoi("-" + NatDigits(n)) == Some(-(n as int))
    ensures n > MaxInt ==> Atoi(NatDigits(n)) == None && Atoi("+" + NatDigits(n)) == None
  {
    var d := NatDigits(n);
    DigitsValueOfNatDigits(n);
    AtoiPlus(d);
    AtoiMinus(d);
    assert IsDigit(d[0]) && Unsigned(d) == d;
  }
}
