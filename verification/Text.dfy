/** The C text helpers the frame formats rely on: %d, atoi, and case folding. */
module Text {
  predicate IsDigit(c: char) { '0' <= c <= '9' }

  predicate AllDigits(s: string) { forall i :: 0 <= i < |s| ==> IsDigit(s[i]) }

  function DigitChar(d: nat): (c: char)
    requires d < 10
    ensures IsDigit(c)
  {
    (48 + d) as char
  }

  /** printf's %d and %u for a non-negative number. */
  function Decimal(n: nat): (s: string)
    ensures |s| >= 1 && AllDigits(s)
  {
    if n < 10 then [DigitChar(n)] else Decimal(n / 10) + [DigitChar(n % 10)]
  }

  function ValueOf(s: string): nat
    requires AllDigits(s)
  {
    if s == [] then 0 else 10 * ValueOf(s[..|s| - 1]) + (s[|s| - 1] as int - 48)
  }

  lemma {:induction false} ValueOfDecimal(n: nat)
    ensures ValueOf(Decimal(n)) == n
  {
    if n >= 10 {
      ValueOfDecimal(n / 10);
      assert Decimal(n)[..|Decimal(n)| - 1] == Decimal(n / 10);
    }
  }

  function Pow10(k: nat): nat { if k == 0 then 1 else 10 * Pow10(k - 1) }

  lemma {:induction false} DecimalLength(n: nat, k: nat)
    requires k >= 1 && n < Pow10(k)
    ensures |Decimal(n)| <= k
  {
    if n >= 10 {
      assert k >= 2 && Pow10(k) == 10 * Pow10(k - 1);
      DecimalLength(n / 10, k - 1);
    }
  }

  /** The leading digits of `s`, at most `max` of them. */
  function TakeDigits(s: string, max: nat): (d: string)
    ensures |d| <= max && |d| <= |s| && AllDigits(d)
  {
    if s == [] || max == 0 || !IsDigit(s[0]) then [] else [s[0]] + TakeDigits(s[1..], max - 1)
  }

  lemma {:induction false} TakeDigitsStep(s: string, max: nat)
    ensures TakeDigits(s, max) ==
            if s == [] || max == 0 || !IsDigit(s[0]) then [] else [s[0]] + TakeDigits(s[1..], max - 1)
  {
  }

  lemma {:induction false} TakeDigitsExact(d: string, rest: string, max: nat)
    requires AllDigits(d) && |d| <= max && (rest == [] || !IsDigit(rest[0]))
    ensures TakeDigits(d + rest, max) == d
  {
    if d == [] {
      assert d + rest == rest;
    } else {
      assert (d + rest)[1..] == d[1..] + rest;
      TakeDigitsExact(d[1..], rest, max - 1);
    }
  }

  function SkipSpaces(s: string): (r: string)
    ensures |r| <= |s|
    ensures r != [] ==> r[0] != ' '
  {
    if s != [] && s[0] == ' ' then SkipSpaces(s[1..]) else s
  }

  /** atoi on a string of spaces and digits. */
  function Atoi(s: string): nat
  {
    var t := SkipSpaces(s);
    ValueOf(TakeDigits(t, |t|))
  }

  // ----- strcasecmp

  function Lower(c: char): char { if 'A' <= c <= 'Z' then (c as int + 32) as char else c }

  function LowerCase(s: string): (r: string)
    ensures |r| == |s|
    ensures forall i :: 0 <= i < |s| ==> r[i] == Lower(s[i])
  {
    seq(|s|, i requires 0 <= i < |s| => Lower(s[i]))
  }

  predicate SameText(a: string, b: string) { LowerCase(a) == LowerCase(b) }
}
