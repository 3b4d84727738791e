/** Printing and reading 64-bit decimal integers. */
module Decimal {

  const BUFFER := 20
  const TWO_63: int := 0x8000_0000_0000_0000

  predicate IsDigit(c: char) {
    '0' <= c <= '9'
  }

  function Digit(d: nat): (c: char)
    requires d < 10
    ensures IsDigit(c) && Value(c) == d
  {
    '0' + d as char
  }

  function Value(c: char): int {
    c as int - '0' as int
  }

  function Digits(n: nat): string {
    if n < 10 then [Digit(n)] else Digits(n / 10) + [Digit(n % 10)]
  }

  /** Signed 64-bit wrap-around. */
  function Wrap64(n: int): int {
    (n + TWO_63) % (2 * TWO_63) - TWO_63
  }

  predicate Int64(n: int) {
    -TWO_63 <= n < TWO_63
  }

  lemma {:induction false} WrapFits(n: int)
    requires Int64(n)
    ensures Wrap64(n) == n
  {
  }

  /** The one number whose negation does not fit is its own. */
  lemma {:induction false} NegationWraps(n: int)
    requires Int64(n)
    ensures Wrap64(-n) == if n == -TWO_63 then n else -n
  {
  }

  function Pow10(k: nat): nat {
    if k == 0 then 1 else 10 * Pow10(k - 1)
  }

  lemma {:induction false} DigitsLength(n: nat, k: nat)
    requires k >= 1 && n < Pow10(k)
    ensures 1 <= |Digits(n)| <= k
  {
    if n >= 10 {
      DigitsLength(n / 10, k - 1);
    }
  }

  lemma {:induction false} AtMostNineteenDigits(n: nat)
    requires n < TWO_63
    ensures |Digits(n)| <= 19
  {
    assert Pow10(5) == 100000;
    assert Pow10(10) == 10000000000;
    assert Pow10(15) == 1000000000000000;
    assert Pow10(19) == 10000000000000000000;
    DigitsLength(n, 19);
  }

  /** The digit loop: it fills the buffer from the end and never runs off its front. */
  method WriteDigits(b: array<char>, whole: int) returns (i: int)
    requires b.Length == BUFFER && whole < TWO_63
    modifies b
    ensures 1 <= i <= BUFFER
    ensures b[i..] == if whole > 0 then Digits(whole) else ""
  {
    var n := whole;
    i := b.Length;
    if whole > 0 {
      AtMostNineteenDigits(whole);
    }
    while n > 0
      invariant 1 <= i <= BUFFER
      invariant if whole <= 0 then n == whole && i == BUFFER
                else n >= 0 && (if n == 0 then "" else Digits(n)) + b[i..] == Digits(whole)
      decreases n
    {
      ghost var tail := b[i..];
      assert |Digits(n) + tail| <= 19;
      assert |Digits(n)| >= 1;
      i := i - 1;
      b[i] := Digit(n % 10);
      assert b[i..] == [Digit(n % 10)] + tail;
      n := n / 10;
    }
  }

  method Itoa(x: int) returns (s: string)
    requires Int64(x)
    ensures s == Printed(x)
  {
    if x == 0 {
      return "0";
    }
    var n, neg := x, x < 0;
    if neg {
      NegationWraps(x);
      n := Wrap64(-n);
    }
    var b := new char[BUFFER](_ => ' ');
    var i := WriteDigits(b, n);
    if neg {
      i := i - 1;
      b[i] := '-';
      assert b[i..] == ['-'] + b[i + 1..];
    }
    return b[i..];
  }

  /** The number a text of digits stands for. */
  function Number(s: string): int {
    if s == [] then 0 else 10 * Number(s[..|s| - 1]) + (s[|s| - 1] as int - '0' as int)
  }

  predicate AllDigits(s: string) {
    forall c :: c in s ==> '0' <= c <= '9'
  }

  /** The digits printed stand for the number, with no zero in front. */
  lemma {:induction false} DigitsStandFor(n: nat)
    ensures AllDigits(Digits(n)) && Number(Digits(n)) == n
    ensures Digits(n) != "" && (n > 0 ==> Digits(n)[0] != '0') && (n == 0 ==> Digits(n) == "0")
  {
    if n < 10 {
      assert Number([Digit(n)]) == 10 * Number([Digit(n)][..0]) + n;
    } else {
      DigitsStandFor(n / 10);
      assert Digits(n)[..|Digits(n)| - 1] == Digits(n / 10);
    }
  }

  /** What is printed of a 64-bit number: its digits, a minus in front of a negative one, and of the smallest one the minus only. */
  lemma {:induction false} PrintedReads(n: int)
    requires Int64(n)
    ensures n >= 0 ==> AllDigits(Printed(n)) && Number(Printed(n)) == n && (n > 0 ==> Printed(n)[0] != '0')
    ensures -TWO_63 < n < 0 ==> Printed(n)[0] == '-' && AllDigits(Printed(n)[1..]) && Number(Printed(n)[1..]) == -n
    ensures n == -TWO_63 ==> Printed(n) == "-"
  {
    if n >= 0 {
      DigitsStandFor(n);
    } else {
      DigitsStandFor(-n);
      assert n > -TWO_63 ==> Printed(n)[1..] == Digits(-n);
    }
  }

  // ---- reading -----------------------------------------------------------------------

  /** What is read of s with acc read before it; anything but a digit makes the whole zero. */
  function Reading(s: string, acc: int): int
    decreases s
  {
    if s == [] then acc
    else if !IsDigit(s[0]) then 0
    else Reading(s[1..], Wrap64(Wrap64(acc * 10) + Value(s[0])))
  }

  method Atoi64(s: string) returns (n: int)
    ensures n == Reading(s, 0)
  {
    n := 0;
    for i := 0 to |s|
      invariant Reading(s[i..], n) == Reading(s, 0)
    {
      var r := s[i];
      assert s[i..][0] == r && s[i..][1..] == s[i + 1..];
      if r < '0' || r > '9' {
        return 0;
      }
      n := Wrap64(Wrap64(n * 10) + Value(r));
    }
  }

  lemma {:induction false} ReadingDigits(n: nat, rest: string)
    requires n < TWO_63
    ensures Reading(Digits(n) + rest, 0) == Reading(rest, n)
  {
    if n < 10 {
      assert (Digits(n) + rest)[1..] == rest;
      WrapFits(n);
      WrapFits(0);
    } else {
      var last := [Digit(n % 10)] + rest;
      assert Digits(n) + rest == Digits(n / 10) + last;
      ReadingDigits(n / 10, last);
      assert last[1..] == rest;
      WrapFits(n / 10 * 10);
      WrapFits(n);
    }
  }

  lemma {:induction false} WrapsAlike(a: int, b: int, d: int)
    requires a == Wrap64(b)
    ensures Wrap64(Wrap64(a * 10) + d) == Wrap64(10 * b + d)
  {
    var m := 2 * TWO_63;
    var k := (b + TWO_63) / m;
    assert a == b - m * k;
    WrapMoves(10 * b, -10 * k);
    assert a * 10 == 10 * b + m * (-10 * k);
    var j := (10 * b + TWO_63) / m;
    assert Wrap64(10 * b) == 10 * b - m * j;
    WrapMoves(10 * b + d, -j);
  }

  lemma {:induction false} WrapMoves(n: int, k: int)
    ensures Wrap64(n + 2 * TWO_63 * k) == Wrap64(n)
  {
    Shifted(n + TWO_63, k);
  }

  lemma {:induction false} Shifted(n: int, k: int)
    ensures (n + 2 * TWO_63 * k) % (2 * TWO_63) == n % (2 * TWO_63)
  {
  }

  /** Reading wraps the number the digits stand for around at 64 bits, and gives 0 for any other text. */
  lemma {:induction false} ReadingIsModular(s: string)
    ensures Reading(s, 0) == if AllDigits(s) then Wrap64(Number(s)) else 0
  {
    ReadingFrom("", s);
    assert "" + s == s;
  }

  lemma {:induction false} ReadingFrom(got: string, s: string)
    requires AllDigits(got)
    ensures Reading(s, Wrap64(Number(got))) == if AllDigits(s) then Wrap64(Number(got + s)) else 0
    decreases s
  {
    if s == "" {
      assert got + s == got;
    } else if IsDigit(s[0]) {
      var got' := got + [s[0]];
      assert got'[..|got|] == got && got' + s[1..] == got + s;
      WrapsAlike(Wrap64(Number(got)), Number(got), Value(s[0]));
      ReadingFrom(got', s[1..]);
      assert AllDigits(s) <==> AllDigits(s[1..]) by {
        assert forall c :: c in s <==> c == s[0] || c in s[1..];
      }
    } else {
      assert s[0] in s;
    }
  }

  function Printed(n: int): string {
    if n == -TWO_63 then "-" else if n < 0 then "-" + Digits(-n) else Digits(n)
  }

  /** Reading what was printed gives the number back exactly when it is not negative. */
  lemma {:induction false} RoundTripIffNonNegative(n: int)
    requires Int64(n)
    ensures Reading(Printed(n), 0) == n <==> n >= 0
  {
    if n >= 0 {
      ReadingDigits(n, "");
      assert Digits(n) + "" == Digits(n);
    } else {
      assert Printed(n)[0] == '-';
    }
  }
}
