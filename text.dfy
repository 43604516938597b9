/** Decimal rendering of integers (as an f-string renders them) and joining with a separator. */
module Text {

  predicate IsDigit(c: char)
  {
    '0' <= c <= '9'
  }

  predicate IsDigits(s: string)
  {
    forall i :: 0 <= i < |s| ==> IsDigit(s[i])
  }

  function DigitChar(d: nat): (c: char)
    requires d < 10
    ensures IsDigit(c)
  {
    ('0' as int + d) as char
  }

  function DigitValue(c: char): (d: nat)
    requires IsDigit(c)
    ensures d < 10
  {
    c as int - '0' as int
  }

  /** Decimal digits of `n`, most significant first, without leading zeros. */
  function NatToDigits(n: nat): (s: string)
    ensures |s| > 0 && IsDigits(s)
    ensures n > 0 ==> s[0] != '0'
    ensures n < 10 <==> |s| == 1
  {
    if n < 10 then [DigitChar(n)] else NatToDigits(n / 10) + [DigitChar(n % 10)]
  }

  /** Value of a string of decimal digits (the empty string reads as 0). */
  function ParseNat(s: string): nat
    requires IsDigits(s)
  {
    if |s| == 0 then 0 else ParseNat(s[..|s| - 1]) * 10 + DigitValue(s[|s| - 1])
  }

  /** Rendering of an integer: a minus sign for negative values, then the digits of its magnitude. */
  function IntToString(i: int): (s: string)
  {
    if i < 0 then "-" + NatToDigits(-i) else NatToDigits(i)
  }

  /** Inverse of IntToString on its range. */
  function ParseInt(s: string): int
    requires IsSignedDigits(s)
  {
    if |s| > 0 && s[0] == '-' then -(ParseNat(s[1..]) as int) else ParseNat(s)
  }

  /** Canonical decimal strings: non-empty, and no leading zero unless the string is "0". */
  predicate Canonical(s: string)
  {
    |s| > 0 && IsDigits(s) && (|s| > 1 ==> s[0] != '0')
  }

  /** Reading back the digits of `n` gives `n`. */
  lemma {:induction false} ParseNatToDigits(n: nat)
    ensures ParseNat(NatToDigits(n)) == n
  {
    if n >= 10 {
      ParseNatToDigits(n / 10);
      var s := NatToDigits(n);
      assert s[..|s| - 1] == NatToDigits(n / 10);
    }
  }

  /** A digit string with a non-zero first digit denotes a positive number. */
  lemma {:induction false} ParseNatPositive(s: string)
    requires |s| > 0 && IsDigits(s) && s[0] != '0'
    ensures ParseNat(s) > 0
  {
    if |s| > 1 {
      var init := s[..|s| - 1];
      assert init[0] == s[0];
      ParseNatPositive(init);
    }
  }

  /** Rendering a canonical digit string's value gives that string back. */
  lemma {:induction false} NatToDigitsOfParse(s: string)
    requires Canonical(s)
    ensures NatToDigits(ParseNat(s)) == s
  {
    var init := s[..|s| - 1];
    var last := s[|s| - 1];
    if |s| == 1 {
      assert init == "";
      assert DigitChar(DigitValue(last)) == last;
    } else {
      assert init[0] == s[0];
      ParseNatPositive(init);
      NatToDigitsOfParse(init);
      var n := ParseNat(s);
      assert n / 10 == ParseNat(init) && n % 10 == DigitValue(last);
      assert DigitChar(DigitValue(last)) == last;
      assert s == init + [last];
    }
  }

  /** What IntToString can produce: digits, possibly after a minus sign. */
  predicate IsSignedDigits(s: string)
  {
    (|s| > 0 && s[0] == '-' && IsDigits(s[1..])) || IsDigits(s)
  }

  /** IntToString is injective: ParseInt reads every rendering back. */
  lemma {:induction false} IntToStringRoundTrip(i: int)
    ensures IsSignedDigits(IntToString(i)) && ParseInt(IntToString(i)) == i
  {
    var s := IntToString(i);
    if i < 0 {
      var digits := NatToDigits(-i);
      assert s == "-" + digits;
      assert s[1..] == digits;
      ParseNatToDigits(-i);
    } else {
      assert s == NatToDigits(i);
      ParseNatToDigits(i);
    }
  }

  /** `sep.join(parts)`: the parts with `sep` between each two neighbours. */
  function Join(parts: seq<string>, sep: string): string
  {
    if |parts| == 0 then ""
    else if |parts| == 1 then parts[0]
    else Join(parts[..|parts| - 1], sep) + sep + parts[|parts| - 1]
  }

  /** Joining two non-empty runs puts exactly one separator between their joins. */
  lemma {:induction false} JoinAppend(ps: seq<string>, qs: seq<string>, sep: string)
    requires |ps| > 0 && |qs| > 0
    ensures Join(ps + qs, sep) == Join(ps, sep) + sep + Join(qs, sep)
    decreases |qs|
  {
    var all := ps + qs;
    if |qs| == 1 {
      assert all[..|all| - 1] == ps;
    } else {
      var init := qs[..|qs| - 1];
      JoinAppend(ps, init, sep);
      assert all[..|all| - 1] == ps + init;
    }
  }

  /** Total length of the parts plus one separator per gap. */
  lemma {:induction false} JoinLength(parts: seq<string>, sep: string)
    requires |parts| > 0
    ensures |Join(parts, sep)| == TotalLength(parts) + (|parts| - 1) * |sep|
  {
    if |parts| > 1 {
      var init := parts[..|parts| - 1];
      JoinLength(init, sep);
      assert TotalLength(parts) == TotalLength(init) + |parts[|parts| - 1]|;
    } else {
      assert TotalLength(parts) == TotalLength(parts[..0]) + |parts[0]|;
    }
  }

  function TotalLength(parts: seq<string>): nat
  {
    if |parts| == 0 then 0 else TotalLength(parts[..|parts| - 1]) + |parts[|parts| - 1]|
  }
}
