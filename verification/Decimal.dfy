// Decimal numerals: how numbers are printed (String(n), padStart) and how a reader gets them back.
module Decimal {
  import opened Option

  predicate IsDigit(c: char) {
    '0' <= c <= '9'
  }

  predicate AllDigits(s: string) {
    forall c | c in s :: IsDigit(c)
  }

  function DigitChar(d: nat): char
    requires d < 10
  {
    (d + '0' as int) as char
  }

  function DigitValue(c: char): nat
    requires IsDigit(c)
  {
    c as int - '0' as int
  }

  function Digits(n: nat): string {
    if n < 10 then [DigitChar(n)] else Digits(n / 10) + [DigitChar(n % 10)]
  }

  function Zeros(n: nat): string {
    seq(n, _ => '0')
  }

  function PadStart(s: string, width: nat): string {
    if |s| < width then Zeros(width - |s|) + s else s
  }

  function Pow10(k: nat): nat {
    if k == 0 then 1 else 10 * Pow10(k - 1)
  }

  // The number a digit string denotes; characters are taken from the left as a reader would.
  function Value(s: string): nat
    requires AllDigits(s)
  {
    if s == [] then 0 else Value(s[..|s| - 1]) * 10 + DigitValue(s[|s| - 1])
  }

  function DigitPrefix(s: string): nat
    ensures DigitPrefix(s) <= |s| && AllDigits(s[..DigitPrefix(s)])
  {
    if s == [] || !IsDigit(s[0]) then 0
    else
      var n := DigitPrefix(s[1..]);
      assert s[..n + 1] == [s[0]] + s[1..][..n];
      n + 1
  }

  // Reads the longest digit prefix and returns its value and what follows it.
  function ReadNat(s: string): Option<(nat, string)> {
    var n := DigitPrefix(s);
    if n == 0 then None else Some((Value(s[..n]), s[n..]))
  }

  lemma {:induction false} DigitsRoundTrip(n: nat)
    ensures AllDigits(Digits(n)) && Digits(n) != [] && Value(Digits(n)) == n
  {
    if n >= 10 {
      DigitsRoundTrip(n / 10);
      assert Digits(n)[..|Digits(n)| - 1] == Digits(n / 10);
    } else {
      assert Digits(n)[..0] == [];
    }
  }

  lemma {:induction false} DigitsLength(n: nat, k: nat)
    requires 1 <= k
    ensures |Digits(n)| <= k <==> n < Pow10(k)
  {
    if n >= 10 {
      if k == 1 {
        assert |Digits(n / 10)| >= 1 by { DigitsRoundTrip(n / 10); }
      } else {
        DigitsLength(n / 10, k - 1);
      }
    } else {
      Pow10Positive(k - 1);
    }
  }

  lemma {:induction false} Pow10Positive(k: nat)
    ensures Pow10(k) >= 1
  {
    if k > 0 { Pow10Positive(k - 1); }
  }

  lemma HornerStep(x: int, p: int, y: int, d: int)
    ensures (x * p + y) * 10 + d == x * (10 * p) + (y * 10 + d)
  {
    assert x * (10 * p) == 10 * (x * p);
  }

  lemma {:induction false} ValueConcat(a: string, b: string)
    requires AllDigits(a) && AllDigits(b)
    ensures AllDigits(a + b) && Value(a + b) == Value(a) * Pow10(|b|) + Value(b)
  {
    if b == [] {
      assert a + b == a;
    } else {
      var front, last := b[..|b| - 1], b[|b| - 1];
      ValueConcat(a, front);
      assert (a + b)[..|a + b| - 1] == a + front && (a + b)[|a + b| - 1] == last;
      HornerStep(Value(a), Pow10(|front|), Value(front), DigitValue(last));
    }
  }

  lemma {:induction false} ZerosVanish(k: nat)
    ensures AllDigits(Zeros(k)) && Value(Zeros(k)) == 0
  {
    if k > 0 {
      assert Zeros(k)[..k - 1] == Zeros(k - 1);
      ZerosVanish(k - 1);
    }
  }

  lemma PadRoundTrip(n: nat, width: nat)
    ensures var s := PadStart(Digits(n), width);
            AllDigits(s) && Value(s) == n && |s| == if |Digits(n)| < width then width else |Digits(n)|
  {
    DigitsRoundTrip(n);
    if |Digits(n)| < width {
      var z := Zeros(width - |Digits(n)|);
      ZerosVanish(width - |Digits(n)|);
      ValueConcat(z, Digits(n));
    }
  }

  lemma {:induction false} DigitPrefixOf(s: string, rest: string)
    requires AllDigits(s) && (rest == [] || !IsDigit(rest[0]))
    ensures DigitPrefix(s + rest) == |s|
  {
    if s == [] {
      assert s + rest == rest;
    } else {
      assert (s + rest)[1..] == s[1..] + rest;
      DigitPrefixOf(s[1..], rest);
    }
  }

  // A printed number followed by anything that is not a digit is read back exactly.
  lemma ReadDigits(n: nat, rest: string)
    requires rest == [] || !IsDigit(rest[0])
    ensures ReadNat(Digits(n) + rest) == Some((n, rest))
  {
    DigitsRoundTrip(n);
    DigitPrefixOf(Digits(n), rest);
    assert (Digits(n) + rest)[..|Digits(n)|] == Digits(n);
    assert (Digits(n) + rest)[|Digits(n)|..] == rest;
  }

  function TrailingDigits(s: string): nat
    ensures TrailingDigits(s) <= |s| && AllDigits(s[|s| - TrailingDigits(s)..])
  {
    if s == [] || !IsDigit(s[|s| - 1]) then 0
    else
      var front := s[..|s| - 1];
      var n := TrailingDigits(front);
      assert s[|s| - (n + 1)..] == front[|front| - n..] + [s[|s| - 1]];
      n + 1
  }

  // The number formed by the digits at the end of a string.
  function TrailingNumber(s: string): nat {
    Value(s[|s| - TrailingDigits(s)..])
  }

  lemma {:induction false} TrailingDigitsOf(head: string, tail: string)
    requires head != [] && !IsDigit(head[|head| - 1]) && AllDigits(tail)
    ensures TrailingDigits(head + tail) == |tail| && TrailingNumber(head + tail) == Value(tail)
  {
    if tail == [] {
      assert head + tail == head;
    } else {
      assert (head + tail)[..|head + tail| - 1] == head + tail[..|tail| - 1];
      TrailingDigitsOf(head, tail[..|tail| - 1]);
    }
    assert (head + tail)[|head|..] == tail;
  }
}
