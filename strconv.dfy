/**
 * Decimal integer parsing as Go's `strconv.Atoi` performs it on a 64-bit
 * platform: an optional '+' or '-', then one or more ASCII digits (leading
 * zeros allowed, no underscores, no spaces), and a value inside the range of
 * `int`; anything else is an error. `Itoa` is the formatting partner used to
 * state the round trip.
 */
module StrConv {
  import opened Wrappers
  import opened GoInt

  predicate IsDigit(c: char) {
    '0' <= c <= '9'
  }

  predicate AllDigits(s: string) {
    forall i :: 0 <= i < |s| ==> IsDigit(s[i])
  }

  function DigitValue(c: char): nat
    requires IsDigit(c)
  {
    (c as int) - ('0' as int)
  }

  function DigitChar(d: nat): (c: char)
    requires d < 10
    ensures IsDigit(c) && DigitValue(c) == d
  {
    ('0' as int + d) as char
  }

  /** The value of a string of digits, most significant first; `None` if some character is not a digit. */
  function ParseDigits(s: string): Option<nat> {
    if s == [] then Some(0)
    else
      match ParseDigits(s[..|s| - 1])
      case None => None
      case Some(v) => if IsDigit(s[|s| - 1]) then Some(v * 10 + DigitValue(s[|s| - 1])) else None
  }

  predicate HasSign(s: string) {
    |s| > 0 && (s[0] == '+' || s[0] == '-')
  }

  /** The part of `s` after an optional leading sign. */
  function Magnitude(s: string): string {
    if HasSign(s) then s[1..] else s
  }

  /** `s` is written as a decimal integer: optional sign, then at least one digit. */
  predicate IsDecimal(s: string) {
    |Magnitude(s)| > 0 && AllDigits(Magnitude(s))
  }

  /**
   * `strconv.Atoi`: an optional sign, at least one digit and nothing else, and
   * a value in the 64-bit range; `None` stands for the syntax error and the
   * range error alike.
   */
  function Atoi(s: string): (r: Option<int>)
    ensures r.Some? ==> InInt64(r.value)
  {
    var m := Magnitude(s);
    if |m| == 0 then None
    else
      match ParseDigits(m)
      case None => None
      case Some(v) =>
        var w: int := v;
        var x := if s[0] == '-' then -w else w;
        if InInt64(x) then Some(x) else None
  }

  /** Decimal digits of a natural number, without leading zeros. */
  function NatToDigits(n: nat): (s: string)
    ensures |s| > 0 && AllDigits(s)
  {
    (if n < 10 then [] else NatToDigits(n / 10)) + [DigitChar(n % 10)]
  }

  /** `strconv.Itoa`: a '-' for a negative number, then its digits. */
  function Itoa(n: int): string {
    if n < 0 then "-" + NatToDigits(-n) else NatToDigits(n)
  }

  lemma {:induction false} NatToDigitsValue(n: nat)
    ensures ParseDigits(NatToDigits(n)) == Some(n)
  {
    var q, d := n / 10, n % 10;
    assert n == q * 10 + d;
    var init: string := if n < 10 then [] else NatToDigits(q);
    var c := DigitChar(d);
    var s := init + [c];
    assert NatToDigits(n) == s;
    assert s[..|s| - 1] == init;
    if n >= 10 {
      NatToDigitsValue(q);
    }
    assert ParseDigits(init) == Some(q);
    assert IsDigit(c) && DigitValue(c) == d;
    assert ParseDigits(s) == Some(q * 10 + d);
  }

  /**
   * Parsing what `Itoa` formats gives the number back exactly when it fits in
   * 64 bits; a longer number is a range error.
   */
  lemma AtoiItoa(n: int)
    ensures Atoi(Itoa(n)) == if InInt64(n) then Some(n) else None
  {
    var m: nat := if n < 0 then -n else n;
    var d := NatToDigits(m);
    NatToDigitsValue(m);
    if n < 0 {
      var s := "-" + d;
      assert s[0] == '-' && s[1..] == d;
      assert HasSign(s) && Magnitude(s) == d;
    } else {
      assert IsDigit(d[0]);
      assert !HasSign(d) && Magnitude(d) == d;
    }
  }

  /** Only strings of digits parse as digits. */
  lemma {:induction false} ParseDigitsSyntax(s: string)
    ensures ParseDigits(s).Some? <==> AllDigits(s)
  {
    if s != [] {
      var init := s[..|s| - 1];
      ParseDigitsSyntax(init);
      assert forall i :: 0 <= i < |init| ==> init[i] == s[i];
    }
  }

  /** What Atoi accepts is written as a decimal integer: an optional sign, then at least one digit. */
  lemma AtoiSyntax(s: string)
    ensures Atoi(s).Some? ==> IsDecimal(s)
  {
    ParseDigitsSyntax(Magnitude(s));
  }

  /** Atoi rejects the empty string, a lone sign, a fraction and surrounding spaces. */
  lemma AtoiRejects()
    ensures Atoi("") == None
    ensures Atoi("+") == None && Atoi("-") == None
    ensures Atoi("2.5") == None && Atoi(" 7") == None
  {
    assert !IsDigit('.') && !IsDigit(' ');
  }

  /** Atoi accepts a leading '+' and leading zeros. */
  lemma AtoiAccepts()
    ensures Atoi("+007") == Some(7)
    ensures Atoi("-12") == Some(-12)
  {
    assert Magnitude("+007") == "007";
    assert ParseDigits("007") == Some(7) by {
      assert "007"[..2] == "00" && "00"[..1] == "0" && "0"[..0] == "";
    }
    assert Magnitude("-12") == "12";
    assert ParseDigits("12") == Some(12) by {
      assert "12"[..1] == "1" && "1"[..0] == "";
    }
  }
}
