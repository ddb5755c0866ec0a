/** Decimal numerals, as lists of digits, and as characters. */
module Decimal {
  type Digit = d: nat | d < 10

  function Digits(n: nat): (r: seq<Digit>)
    ensures r != [] && (r[0] == 0 ==> |r| == 1)
  {
    if n < 10 then [n] else Digits(n / 10) + [n % 10]
  }

  function Value(ds: seq<Digit>): nat {
    if ds == [] then 0 else Value(ds[..|ds| - 1]) * 10 + ds[|ds| - 1]
  }

  /** Reading a printed number gives the number back. */
  lemma {:induction false} ValueOfDigits(n: nat)
    ensures Value(Digits(n)) == n
  {
    if n >= 10 {
      ValueOfDigits(n / 10);
      assert Digits(n)[..|Digits(n)| - 1] == Digits(n / 10);
    }
  }

  function Char(d: Digit): char { '0' + d as char }

  function Chars(ds: seq<Digit>): (r: string)
    ensures |r| == |ds| && forall i :: 0 <= i < |r| ==> r[i] == Char(ds[i])
  {
    seq(|ds|, i requires 0 <= i < |ds| => Char(ds[i]))
  }

  function Numeral(n: nat): (r: string)
    ensures r != [] && forall i :: 0 <= i < |r| ==> '0' <= r[i] <= '9'
  {
    Chars(Digits(n))
  }

  predicate AllDigits(s: string) { forall i :: 0 <= i < |s| ==> '0' <= s[i] <= '9' }

  // The number a numeral stands for.
  function ReadNumeral(s: string): nat
    requires AllDigits(s)
  {
    if s == "" then 0 else ReadNumeral(s[..|s| - 1]) * 10 + (s[|s| - 1] - '0') as nat
  }

  lemma {:induction false} ReadChars(ds: seq<Digit>)
    ensures AllDigits(Chars(ds)) && ReadNumeral(Chars(ds)) == Value(ds)
  {
    if ds != [] {
      var s, init := Chars(ds), ds[..|ds| - 1];
      ReadChars(init);
      assert s[..|s| - 1] == Chars(init);
    }
  }

  /** A numeral reads back as its number. */
  lemma NumeralReads(n: nat)
    ensures AllDigits(Numeral(n)) && ReadNumeral(Numeral(n)) == n
  {
    ReadChars(Digits(n));
    ValueOfDigits(n);
  }
}
