/** Card identifiers: how a new identifier is rendered from a random draw
    (`str_pad(mt_rand(1, 99999999), 8, '0', STR_PAD_LEFT)`), and the format
    check that the read endpoints apply to an incoming identifier. */
module CardIds {

  /** Largest value of the random draw; the smallest is 1. */
  const MaxDraw: int := 99999999

  /** Width to which a draw is zero-padded. */
  const IdWidth: nat := 8

  /** One value of the random draw, within the range the generator asks for. */
  type Draw = d: int | 1 <= d <= MaxDraw witness 1

  /** An ASCII decimal digit, which is all that `\d` matches without the `u` modifier. */
  predicate IsDigit(c: char) {
    '0' <= c <= '9'
  }

  predicate AllDigits(s: string) {
    forall i :: 0 <= i < |s| ==> IsDigit(s[i])
  }

  predicate AllZeros(s: string) {
    forall i :: 0 <= i < |s| ==> s[i] == '0'
  }

  function Pow10(k: nat): (p: nat)
    ensures p >= 1
  {
    if k == 0 then 1 else 10 * Pow10(k - 1)
  }

  function DigitChar(d: int): (c: char)
    requires 0 <= d < 10
    ensures IsDigit(c)
  {
    ('0' as int + d) as char
  }

  function DigitValue(c: char): (d: int)
    requires IsDigit(c)
    ensures 0 <= d < 10 && DigitChar(d) == c
  {
    c as int - '0' as int
  }

  /** The decimal text of a non-negative integer, as PHP turns an int into a
      string: no leading zeros, and "0" for zero. */
  function Decimal(n: nat): (s: string)
    ensures 1 <= |s| && AllDigits(s)
    ensures n > 0 ==> s[0] != '0'
  {
    if n < 10 then [DigitChar(n)] else Decimal(n / 10) + [DigitChar(n % 10)]
  }

  /** The number a string of decimal digits denotes; leading zeros do not count. */
  function DecimalValue(s: string): (n: nat)
    requires AllDigits(s)
    ensures n < Pow10(|s|)
  {
    if s == [] then 0 else 10 * DecimalValue(s[..|s| - 1]) + DigitValue(s[|s| - 1])
  }

  /** `str_pad($s, $width, $pad, STR_PAD_LEFT)`: copies of `pad` are put in
      front until the string is `width` long; a string that is already that
      long is returned as it is. */
  function PadLeft(s: string, width: nat, pad: char): (r: string)
    ensures |r| == if |s| >= width then |s| else width
    ensures r[|r| - |s|..] == s
    ensures forall i :: 0 <= i < |r| - |s| ==> r[i] == pad
  {
    if |s| >= width then s else seq(width - |s|, _ => pad) + s
  }

  /** The identifier the generator makes of one draw. It is always eight
      digits, and reading it back as a number gives the draw again. */
  function CardIdOf(d: Draw): (id: string)
    ensures IsCardIdFormat(id)
    ensures DecimalValue(id) == d
  {
    DecimalFits(d, IdWidth);
    DecimalRoundTrip(d);
    var digits := Decimal(d);
    var id := PadLeft(digits, IdWidth, '0');
    assert id == id[..|id| - |digits|] + digits;
    ZerosPrefix(id[..|id| - |digits|], digits);
    id
  }

  /** Intended meaning of the pattern `/^\d{8}$/`: exactly eight ASCII digits
      and nothing else. */
  function IsCardIdFormat(s: string): (b: bool)
    ensures b ==> AllDigits(s) && DecimalValue(s) <= MaxDraw
  {
    |s| == IdWidth && AllDigits(s)
  }

  /** What PCRE accepts for `/^\d{8}$/` as written: without the `D` modifier,
      `$` also matches just before a final newline. Apart from a well-formed
      identifier, the one kind of string it accepts is eight digits followed
      by a newline. */
  function MatchesPatternAsWritten(s: string): (b: bool)
    ensures b <==> IsCardIdFormat(if |s| > 0 && s[|s| - 1] == '\n' then s[..|s| - 1] else s)
  {
    || IsCardIdFormat(s)
    || (|s| == IdWidth + 1 && IsCardIdFormat(s[..IdWidth]) && s[IdWidth] == '\n')
  }

  /** An identifier the generator can produce: eight digits, not all zero. */
  predicate IsIssuable(s: string) {
    IsCardIdFormat(s) && !AllZeros(s)
  }

  lemma {:induction false} DecimalFits(n: nat, k: nat)
    requires 1 <= k && n < Pow10(k)
    ensures |Decimal(n)| <= k
  {
    if n >= 10 {
      assert k >= 2;
      assert n / 10 < Pow10(k - 1);
      DecimalFits(n / 10, k - 1);
    }
  }

  /** Reading back the decimal text of a number gives the number. */
  lemma {:induction false} DecimalRoundTrip(n: nat)
    ensures DecimalValue(Decimal(n)) == n
  {
    var s := Decimal(n);
    if n < 10 {
      assert s[..|s| - 1] == [];
    } else {
      assert s[..|s| - 1] == Decimal(n / 10);
      DecimalRoundTrip(n / 10);
    }
  }

  lemma {:induction false} ZerosValue(z: string)
    requires AllZeros(z)
    ensures AllDigits(z) && DecimalValue(z) == 0
  {
    if z != [] {
      ZerosValue(z[..|z| - 1]);
    }
  }

  /** Zero-padding on the left does not change the number a digit string denotes. */
  lemma {:induction false} ZerosPrefix(z: string, s: string)
    requires AllZeros(z) && AllDigits(s)
    ensures AllDigits(z + s) && DecimalValue(z + s) == DecimalValue(s)
  {
    ZerosValue(z);
    if s == [] {
      assert z + s == z;
    } else {
      var t := z + s;
      assert t[..|t| - 1] == z + s[..|s| - 1];
      ZerosPrefix(z, s[..|s| - 1]);
    }
  }

  /** The draw range starts at 1, so "00000000" is never issued. */
  lemma CardIdNeverAllZeros(d: Draw)
    ensures IsIssuable(CardIdOf(d))
  {
    var id := CardIdOf(d);
    if AllZeros(id) {
      ZerosValue(id);
      assert false;
    }
  }

  /** Distinct draws give distinct identifiers. */
  lemma CardIdInjective(d1: Draw, d2: Draw)
    ensures CardIdOf(d1) == CardIdOf(d2) <==> d1 == d2
  {
  }

  /** The finding about the format check: an identifier followed by a newline
      passes the pattern as written, though it is not eight digits. */
  lemma AsWrittenAcceptsTrailingNewline(s: string)
    requires IsCardIdFormat(s)
    ensures MatchesPatternAsWritten(s + "\n")
    ensures !IsCardIdFormat(s + "\n")
  {
  }

  /** Equal-length digit strings that denote the same number are equal. */
  lemma {:induction false} DecimalValueInjective(s: string, t: string)
    requires AllDigits(s) && AllDigits(t) && |s| == |t|
    requires DecimalValue(s) == DecimalValue(t)
    ensures s == t
  {
    if s != [] {
      var n := |s|;
      var a, b := DigitValue(s[n - 1]), DigitValue(t[n - 1]);
      var p, q := DecimalValue(s[..n - 1]), DecimalValue(t[..n - 1]);
      assert 10 * p + a == 10 * q + b;
      assert a == b && p == q;
      DecimalValueInjective(s[..n - 1], t[..n - 1]);
      assert s == s[..n - 1] + [s[n - 1]] && t == t[..n - 1] + [t[n - 1]];
    }
  }

  /** The identifiers the generator can produce are exactly the issuable
      strings: eight digits, not all zero. */
  lemma IssuableIsDrawn(s: string)
    ensures IsIssuable(s) <==> exists d: Draw :: CardIdOf(d) == s
  {
    if IsIssuable(s) {
      var v := DecimalValue(s);
      if v == 0 {
        var z := seq(IdWidth, _ => '0');
        ZerosValue(z);
        DecimalValueInjective(s, z);
        assert false;
      }
      var d: Draw := v;
      DecimalValueInjective(CardIdOf(d), s);
    }
    if exists d: Draw :: CardIdOf(d) == s {
      var d: Draw :| CardIdOf(d) == s;
      CardIdNeverAllZeros(d);
    }
  }
}
