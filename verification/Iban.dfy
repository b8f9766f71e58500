// IBAN validation: the ISO 7064 MOD 97-10 check over the rearranged account number, and what it detects.
module Iban {
  import opened Decimal

  predicate IsLetter(c: char) {
    'A' <= c <= 'Z'
  }

  predicate IsAlnum(c: char) {
    IsLetter(c) || IsDigit(c)
  }

  predicate Alnum(s: string) {
    forall c | c in s :: IsAlnum(c)
  }

  // The characters matched by \s.
  predicate IsSpace(c: char) {
    var n := c as int;
    0x09 <= n <= 0x0D || n == 0x20 || n == 0xA0 || n == 0x1680 || 0x2000 <= n <= 0x200A || n == 0x2028 || n == 0x2029
    || n == 0x202F || n == 0x205F || n == 0x3000 || n == 0xFEFF
  }

  function Upper(c: char): char {
    if 'a' <= c <= 'z' then (c as int - 'a' as int + 'A' as int) as char else c
  }

  function Clean(s: string): string {
    if s == [] then [] else (if IsSpace(s[0]) then [] else [Upper(s[0])]) + Clean(s[1..])
  }

  // Two letters, two digits, then 11 to 30 letters or digits.
  predicate WellFormed(s: string) {
    15 <= |s| <= 34 && IsLetter(s[0]) && IsLetter(s[1]) && IsDigit(s[2]) && IsDigit(s[3]) && Alnum(s[4..])
  }

  function Weight(c: char): nat
    requires IsAlnum(c)
  {
    if IsLetter(c) then c as int - 'A' as int + 10 else DigitValue(c)
  }

  // Letters become two digits, digits stay.
  function Code(c: char): string
    requires IsAlnum(c)
  {
    if IsLetter(c) then Digits(Weight(c)) else [c]
  }

  function Expand(s: string): string
    requires Alnum(s)
  {
    if s == [] then [] else Expand(s[..|s| - 1]) + Code(s[|s| - 1])
  }

  function Rearranged(s: string): string
    requires |s| >= 4
  {
    s[4..] + s[..4]
  }

  // The number read off an account string once letters are replaced.
  function Number(s: string): nat
    requires Alnum(s)
  {
    if s == [] then 0
    else
      var c := s[|s| - 1];
      Number(s[..|s| - 1]) * (if IsLetter(c) then 100 else 10) + Weight(c)
  }

  predicate Valid(s: string) {
    WellFormed(s) && (WellFormedAlnum(s); Number(Rearranged(s)) % 97 == 1)
  }

  lemma WellFormedAlnum(s: string)
    requires WellFormed(s)
    ensures Alnum(s) && Alnum(Rearranged(s))
  {
    assert s == s[..4] + s[4..];
    forall c | c in s[..4] ensures IsAlnum(c) {
      assert c == s[0] || c == s[1] || c == s[2] || c == s[3];
    }
  }

  lemma CodeValue(c: char)
    requires IsAlnum(c)
    ensures AllDigits(Code(c)) && Value(Code(c)) == Weight(c) && |Code(c)| == if IsLetter(c) then 2 else 1
  {
    if IsLetter(c) {
      DigitsRoundTrip(Weight(c));
      assert Weight(c) / 10 < 10 && |Digits(Weight(c) / 10)| == 1;
    } else {
      assert [c][..0] == [];
    }
  }

  // The digit string built by the loop denotes the number above.
  lemma {:induction false} ExpandValue(s: string)
    requires Alnum(s)
    ensures AllDigits(Expand(s)) && Value(Expand(s)) == Number(s)
  {
    if s != [] {
      ExpandValue(s[..|s| - 1]);
      CodeValue(s[|s| - 1]);
      ValueConcat(Expand(s[..|s| - 1]), Code(s[|s| - 1]));
      assert Pow10(1) == 10 && Pow10(2) == 100;
    }
  }

  method ValidateIban(plaintext: string) returns (ok: bool)
    ensures ok == Valid(Clean(plaintext))
  {
    var cleaned := Clean(plaintext);
    if !WellFormed(cleaned) {
      return false;
    }
    WellFormedAlnum(cleaned);
    var rearranged := Rearranged(cleaned);
    var acc := "";
    for i := 0 to |rearranged|
      invariant acc == Expand(rearranged[..i])
    {
      assert rearranged[..i + 1][..i] == rearranged[..i];
      acc := acc + Code(rearranged[i]);
    }
    assert rearranged[..|rearranged|] == rearranged;
    ExpandValue(rearranged);
    return Value(acc) % 97 == 1;
  }

  // ----- Arithmetic modulo 97 --------------------------------------------------------------------

  function Scale(s: string): nat
    requires Alnum(s)
  {
    if s == [] then 1 else Scale(s[..|s| - 1]) * if IsLetter(s[|s| - 1]) then 100 else 10
  }

  lemma {:induction false} NumberConcat(a: string, b: string)
    requires Alnum(a) && Alnum(b)
    ensures Alnum(a + b) && Number(a + b) == Number(a) * Scale(b) + Number(b)
  {
    if b == [] {
      assert a + b == a;
    } else {
      var front, last := b[..|b| - 1], b[|b| - 1];
      NumberConcat(a, front);
      assert (a + b)[..|a + b| - 1] == a + front && (a + b)[|a + b| - 1] == last;
      var w := if IsLetter(last) then 100 else 10;
      Distribute(Number(a), Scale(front), Number(front), w);
    }
  }

  lemma Distribute(x: int, p: int, y: int, w: int)
    ensures (x * p + y) * w == x * (p * w) + y * w
  {
    assert x * (p * w) == x * p * w;
  }

  lemma TenCancels(t: int, w: int)
    requires (w == 10 || w == 100) && (t * w) % 97 == 0
    ensures t % 97 == 0
  {
    if w == 10 {
      InverseCancels(10, t, 68, 7);
    } else {
      InverseCancels(100, t, 65, 67);
    }
  }

  // 10 is invertible modulo 97, so scaling by a power of it loses nothing.
  lemma {:induction false} ScaleCancels(d: int, s: string)
    requires Alnum(s) && (d * Scale(s)) % 97 == 0
    ensures d % 97 == 0
  {
    if s != [] {
      var front, w := s[..|s| - 1], if IsLetter(s[|s| - 1]) then 100 else 10;
      Distribute(d, Scale(front), 0, w);
      TenCancels(d * Scale(front), w);
      ScaleCancels(d, front);
    }
  }

  predicate SameKind(c: char, d: char) {
    (IsLetter(c) && IsLetter(d)) || (IsDigit(c) && IsDigit(d))
  }

  // A number split after a stretch `x`, which brings the digits read so far to `u`.
  lemma NumberSplit(a: string, x: string, b: string, u: int, p: int, n: int)
    requires Alnum(a) && Alnum(x) && Alnum(b)
    requires u == Number(a) * Scale(x) + Number(x) && p == Scale(b) && n == Number(b)
    ensures Alnum(a + x + b)
    ensures Number(a + x + b) == u * p + n
  {
    NumberConcat(a, x);
    NumberConcat(a + x, b);
  }

  // Replacing a stretch by one of equal scale changes the residue unless the stretches agree modulo 97.
  lemma ReplacementResidue(a: string, x: string, y: string, b: string)
    requires Alnum(a) && Alnum(x) && Alnum(y) && Alnum(b) && Scale(x) == Scale(y)
    requires Alnum(a + x + b) && Alnum(a + y + b) && Number(a + x + b) % 97 == Number(a + y + b) % 97
    ensures (Number(x) - Number(y)) % 97 == 0
  {
    hide Number, Scale;
    var h, p, n := Number(a) * Scale(x), Scale(b), Number(b);
    var u, v := h + Number(x), h + Number(y);
    NumberSplit(a, x, b, u, p, n);
    NumberSplit(a, y, b, v, p, n);
    ScaledDifference(u, v, p, n, Number(a + x + b), Number(a + y + b));
    ScaleCancels(u - v, b);
  }

  lemma ScaledDifference(u: int, v: int, p: int, n: int, m: int, m': int)
    requires m == u * p + n && m' == v * p + n && m % 97 == m' % 97
    ensures ((u - v) * p) % 97 == 0
  {
    assert m - m' == (u - v) * p;
    EqualResidues(m, m', (u - v) * p);
  }

  // ----- Against the standard --------------------------------------------------------------------

  const ALPHABET := "0123456789" + "ABCDEFGHIJKLM" + "NOPQRSTUVWXYZ"

  // A character's value: its place in the alphabet that starts with the digits.
  predicate IsPlace(c: char, k: nat) {
    k < |ALPHABET| && ALPHABET[k] == c
  }

  lemma WeightIsPlace(c: char, k: nat)
    requires IsAlnum(c)
    ensures Weight(c) < |ALPHABET| && (IsPlace(c, k) <==> k == Weight(c))
  {
    DigitPlaces();
    LetterPlaces();
  }

  lemma DigitPlaces()
    ensures |ALPHABET| == 36 && forall k | 0 <= k < 10 :: ALPHABET[k] == (k + '0' as int) as char
  {
    var digits := "0123456789";
    assert forall k | 0 <= k < 10 :: ALPHABET[k] == digits[k];
  }

  lemma LetterPlaces()
    ensures |ALPHABET| == 36 && forall k | 10 <= k < 36 :: ALPHABET[k] == (k - 10 + 'A' as int) as char
  {
    var first, second := "ABCDEFGHIJKLM", "NOPQRSTUVWXYZ";
    assert forall k | 10 <= k < 23 :: ALPHABET[k] == first[k - 10];
    assert forall k | 23 <= k < 36 :: ALPHABET[k] == second[k - 23];
  }

  // The remainder modulo 97 of the text after a remainder r, one character at a time: values from 10 on take two
  // decimal places.
  ghost predicate Remains(s: string, r: nat, end: nat)
    decreases |s|
  {
    if s == "" then end == r
    else exists k | IsPlace(s[0], k) :: Remains(s[1..], (r * (if k < 10 then 10 else 100) + k) % 97, end)
  }

  lemma RemainsUnfold(s: string, r: nat, end: nat)
    requires s != "" && IsAlnum(s[0])
    ensures var k := Weight(s[0]);
            Remains(s, r, end) <==> Remains(s[1..], (r * (if k < 10 then 10 else 100) + k) % 97, end)
  {
    WeightIsPlace(s[0], Weight(s[0]));
    forall j | IsPlace(s[0], j) ensures j == Weight(s[0]) {
      WeightIsPlace(s[0], j);
    }
    hide IsPlace;
  }

  lemma NumberAppend(a: string, c: char)
    requires Alnum(a) && IsAlnum(c)
    ensures Alnum(a + [c]) && Number(a + [c]) == Number(a) * (if Weight(c) < 10 then 10 else 100) + Weight(c)
  {
    assert (a + [c])[..|a|] == a;
  }

  lemma AlnumSplit(s: string)
    requires s != "" && Alnum(s)
    ensures IsAlnum(s[0]) && Alnum(s[1..])
  {
    assert s[0] in s && forall c | c in s[1..] :: c in s;
  }

  lemma {:induction false} NumberRemains(s: string, before: string, end: nat)
    requires Alnum(before) && Alnum(s)
    ensures Alnum(before + s)
    ensures Remains(s, Number(before) % 97, end) <==> end == Number(before + s) % 97
    decreases |s|
  {
    if s == "" {
      assert before + s == before;
    } else {
      AlnumSplit(s);
      hide Remains, Number, Weight, IsAlnum, Alnum;
      var k, now := Weight(s[0]), before + [s[0]];
      RemainsUnfold(s, Number(before) % 97, end);
      NumberAppend(before, s[0]);
      assert now + s[1..] == before + s;
      var w := if k < 10 then 10 else 100;
      RemainderStep(Number(before), w, k);
      assert Number(now) % 97 == (Number(before) % 97 * w + k) % 97;
      NumberRemains(s[1..], now, end);
    }
  }

  lemma RemainderStep(n: nat, w: nat, k: nat)
    ensures (n % 97 * w + k) % 97 == (n * w + k) % 97
  {
    var q := n / 97;
    assert n == 97 * q + n % 97;
    assert n * w + k == 97 * (q * w) + (n % 97 * w + k);
    MultipleVanishes(q * w, n % 97 * w + k);
  }

  // A country code of two letters, two check digits, and an account number of 11 to 30 letters or digits.
  predicate Shape(country: string, check: string, account: string) {
    && |country| == 2 && (forall i | 0 <= i < 2 :: 'A' <= country[i] <= 'Z')
    && |check| == 2 && (forall i | 0 <= i < 2 :: '0' <= check[i] <= '9')
    && 11 <= |account| <= 30
    && forall i | 0 <= i < |account| :: '0' <= account[i] <= '9' || 'A' <= account[i] <= 'Z'
  }

  lemma AlnumText(s: string)
    ensures Alnum(s) <==> forall i | 0 <= i < |s| :: '0' <= s[i] <= '9' || 'A' <= s[i] <= 'Z'
  {
    if Alnum(s) {
      forall i | 0 <= i < |s| ensures '0' <= s[i] <= '9' || 'A' <= s[i] <= 'Z' {
        assert s[i] in s;
      }
    }
  }

  lemma ShapeIff(country: string, check: string, account: string)
    requires |country| == 2 && |check| == 2
    ensures var s := country + check + account;
            && (WellFormed(s) <==> Shape(country, check, account))
            && Rearranged(s) == account + country + check
  {
    var s := country + check + account;
    assert s[4..] == account && s[..4] == country + check;
    assert s[0] == country[0] && s[1] == country[1] && s[2] == check[0] && s[3] == check[1];
    AlnumText(account);
    hide Alnum;
    assert account + (country + check) == account + country + check;
  }

  // ISO 7064 MOD 97-10: the account number, then the country code and the check digits, leave the remainder 1.
  lemma ValidIff(country: string, check: string, account: string)
    requires |country| == 2 && |check| == 2
    ensures Valid(country + check + account) <==>
            Shape(country, check, account) && Remains(account + country + check, 0, 1)
  {
    var s := country + check + account;
    ShapeIff(country, check, account);
    hide Shape, Number, Remains, Alnum;
    if WellFormed(s) {
      WellFormedAlnum(s);
      hide WellFormed, Rearranged;
      NothingRead();
      assert "" + Rearranged(s) == Rearranged(s);
      NumberRemains(Rearranged(s), "", 1);
    }
  }

  lemma NothingRead()
    ensures Alnum("") && Number("") == 0
  {
  }

  // White space and the case of letters do not matter.
  lemma CleanIgnores(a: string, b: string, c: char)
    ensures c == ' ' || c == '\t' || c == '\n' || c == '\r' ==> Clean(a + [c] + b) == Clean(a + b)
    ensures 'a' <= c <= 'z' ==> Clean(a + [c] + b) == Clean(a + [(c as int - 32) as char] + b)
    ensures 'A' <= c <= 'Z' || '0' <= c <= '9' ==> Clean(a + [c] + b) == Clean(a) + [c] + Clean(b)
  {
    CleanAround(a, c, b);
    CleanConcat(a, b);
    CleanChar(c);
    hide Clean;
    assert Clean(a) + [] + Clean(b) == Clean(a) + Clean(b);
    if 'a' <= c <= 'z' { CleanAround(a, (c as int - 32) as char, b); }
  }

  // What cleaning leaves of a character.
  function CleanOf(c: char): string {
    if IsSpace(c) then [] else [Upper(c)]
  }

  lemma CleanChar(c: char)
    ensures c == ' ' || c == '\t' || c == '\n' || c == '\r' ==> CleanOf(c) == []
    ensures 'a' <= c <= 'z' ==> CleanOf(c) == CleanOf((c as int - 32) as char) == [(c as int - 32) as char]
    ensures 'A' <= c <= 'Z' || '0' <= c <= '9' ==> CleanOf(c) == [c]
  {
  }

  lemma CleanAround(a: string, c: char, b: string)
    ensures Clean(a + [c] + b) == Clean(a) + CleanOf(c) + Clean(b)
  {
    CleanConcat(a + [c], b);
    CleanConcat(a, [c]);
    CleanOne(c);
  }

  lemma CleanOne(c: char)
    ensures Clean([c]) == CleanOf(c)
  {
    assert [c][1..] == "" && Clean("") == "";
  }

  lemma {:induction false} CleanConcat(a: string, b: string)
    ensures Clean(a + b) == Clean(a) + Clean(b)
  {
    hide IsSpace, Upper;
    if a == "" {
      assert a + b == b;
    } else {
      assert (a + b)[1..] == a[1..] + b;
      CleanConcat(a[1..], b);
    }
  }

  // ----- Error detection -------------------------------------------------------------------------

  lemma NumberOne(c: char)
    requires IsAlnum(c)
    ensures Number([c]) == Weight(c) && Scale([c]) == if IsLetter(c) then 100 else 10
  {
    assert [c][..0] == [];
  }

  lemma NumberTwo(c: char, d: char)
    requires IsAlnum(c) && IsAlnum(d)
    ensures Number([c, d]) == Weight(c) * (if IsLetter(d) then 100 else 10) + Weight(d)
    ensures Scale([c, d]) == (if IsLetter(c) then 100 else 10) * (if IsLetter(d) then 100 else 10)
  {
    assert [c, d] == [c] + [d];
    NumberOne(c);
    NumberOne(d);
    assert [c, d][..1] == [c];
  }

  // Where a character of the account lands after the rearrangement.
  function Position(s: string, i: nat): nat
    requires 4 <= |s| && i < |s|
  {
    if i < 4 then |s| - 4 + i else i - 4
  }

  lemma RearrangedUpdate(s: string, i: nat, c: char)
    requires 4 <= |s| && i < |s|
    ensures Rearranged(s[i := c]) == Rearranged(s)[Position(s, i) := c]
    ensures Rearranged(s)[Position(s, i)] == s[i]
  {
    if i < 4 {
      assert s[i := c][4..] == s[4..];
    } else {
      assert s[i := c][..4] == s[..4];
    }
  }

  lemma OneChange(r: string, j: nat, c: char)
    requires j < |r| && Alnum(r) && SameKind(r[j], c) && Alnum(r[j := c])
    requires Number(r) % 97 == Number(r[j := c]) % 97
    ensures r[j] == c
  {
    var a, x, b := r[..j], r[j], r[j + 1..];
    assert r == a + [x] + b && r[j := c] == a + [c] + b;
    NumberOne(x);
    NumberOne(c);
    ReplacementResidue(a, [x], [c], b);
  }

  lemma SwapArithmetic(x: int, y: int, w: int)
    requires (w == 10 && 0 <= x <= 9 && 0 <= y <= 9) || (w == 100 && 10 <= x <= 35 && 10 <= y <= 35)
    requires ((x * w + y) - (y * w + x)) % 97 == 0
    ensures x == y
  {
    assert (x * w + y) - (y * w + x) == if w == 10 then 9 * (x - y) else 99 * (x - y);
  }

  lemma OneSwap(a: string, x: char, y: char, b: string)
    requires SameKind(x, y) && Alnum(a) && Alnum(b) && Alnum(a + [x, y] + b) && Alnum(a + [y, x] + b)
    requires Number(a + [x, y] + b) % 97 == Number(a + [y, x] + b) % 97
    ensures x == y
  {
    NumberTwo(x, y);
    NumberTwo(y, x);
    ReplacementResidue(a, [x, y], [y, x], b);
    SwapArithmetic(Weight(x), Weight(y), if IsLetter(x) then 100 else 10);
  }

  lemma SwapSplit(r: string, j: nat)
    requires j + 1 < |r|
    ensures r == r[..j] + [r[j], r[j + 1]] + r[j + 2..]
    ensures Swapped(r, j) == r[..j] + [r[j + 1], r[j]] + r[j + 2..]
  {
  }

  // Any single-character error that keeps the kind of the character is detected.
  lemma SubstitutionDetected(s: string, i: nat, c: char)
    requires Valid(s) && i < |s| && SameKind(s[i], c) && c != s[i]
    ensures !Valid(s[i := c])
  {
    if Valid(s[i := c]) {
      WellFormedAlnum(s);
      WellFormedAlnum(s[i := c]);
      RearrangedUpdate(s, i, c);
      OneChange(Rearranged(s), Position(s, i), c);
    }
  }

  function Swapped(s: string, i: nat): string
    requires i + 1 < |s|
  {
    s[i := s[i + 1]][i + 1 := s[i]]
  }

  // Swapping two different neighbours of one kind that stay neighbours after the rearrangement.
  lemma InnerSwapDetected(s: string, i: nat)
    requires Valid(s) && i + 1 < |s| && i != 3 && SameKind(s[i], s[i + 1]) && s[i] != s[i + 1]
    ensures !Valid(Swapped(s, i))
  {
    var t := Swapped(s, i);
    if Valid(t) {
      WellFormedAlnum(s);
      WellFormedAlnum(t);
      RearrangedUpdate(s, i, s[i + 1]);
      RearrangedUpdate(s[i := s[i + 1]], i + 1, s[i]);
      RearrangedUpdate(s, i + 1, s[i]);
      var r, j := Rearranged(s), Position(s, i);
      assert Rearranged(t) == Swapped(r, j);
      SwapSplit(r, j);
      OneSwap(r[..j], r[j], r[j + 1], r[j + 2..]);
    }
  }

  // The fourth and fifth characters end up at opposite ends of the number, so swapping them changes it by a multiple
  // of a power of ten less one. The order of 10 modulo 97 is 96, and no account has that many digits: here are the
  // residues of the powers that can occur.
  const RESIDUES: seq<seq<int>> :=
    [[1, 10, 3, 30, 9, 90, 27, 76, 81, 34, 49],
     [5, 50, 15, 53, 45, 62, 38, 89, 17, 73, 51],
     [25, 56, 75, 71, 31, 19, 93, 57, 85, 74, 61],
     [28, 86, 84, 64, 58, 95, 77, 91, 37, 79, 14],
     [43, 42, 32, 29, 96, 87, 94, 67, 88, 7, 70],
     [21, 16, 63, 48, 92, 47, 82, 44, 52, 35, 59],
     [8, 80, 24, 46, 72, 41, 22, 26, 66, 78, 4]]

  lemma RowStep(i: nat, j: nat)
    requires i < 7 && j < 10
    ensures |RESIDUES| == 7 && |RESIDUES[i]| == 11 && RESIDUES[i][j] * 10 % 97 == RESIDUES[i][j + 1]
  {
  }

  lemma RowEnd(i: nat)
    requires i < 6
    ensures |RESIDUES| == 7 && |RESIDUES[i]| == |RESIDUES[i + 1]| == 11
            && RESIDUES[i][10] * 10 % 97 == RESIDUES[i + 1][0]
  {
  }

  lemma ResiduesStep(k: nat)
    requires k < 76
    ensures |RESIDUES| == 7 && forall i | 0 <= i < 7 :: |RESIDUES[i]| == 11
    ensures RESIDUES[k / 11][k % 11] * 10 % 97 == RESIDUES[(k + 1) / 11][(k + 1) % 11]
  {
    var i, j := k / 11, k % 11;
    assert k == 11 * i + j;
    if j == 10 {
      assert (k + 1) / 11 == i + 1 && (k + 1) % 11 == 0;
      RowEnd(i);
    } else {
      assert (k + 1) / 11 == i && (k + 1) % 11 == j + 1;
      RowStep(i, j);
    }
  }

  lemma MultipleVanishes(q: int, z: int)
    ensures (97 * q + z) % 97 == z % 97
  {
    var t, r := z / 97, z % 97;
    assert 97 * q + z == 97 * (q + t) + r;
  }

  lemma TimesTenModulo(p: int, r: int)
    requires p % 97 == r
    ensures 10 * p % 97 == r * 10 % 97
  {
    var q := p / 97;
    assert 10 * p == 97 * (10 * q) + r * 10;
    MultipleVanishes(10 * q, r * 10);
  }

  lemma {:induction false} PowerResidue(k: nat)
    requires k < 77
    ensures |RESIDUES| == 7 && forall i | 0 <= i < 7 :: |RESIDUES[i]| == 11
    ensures Pow10(k) % 97 == RESIDUES[k / 11][k % 11]
  {
    if k == 0 {
      ResiduesStep(0);
    } else {
      PowerResidue(k - 1);
      ResiduesStep(k - 1);
      TimesTenModulo(Pow10(k - 1), RESIDUES[(k - 1) / 11][(k - 1) % 11]);
    }
  }

  lemma PowersOfTen(k: nat)
    requires 1 <= k < 77
    ensures Pow10(k) % 97 != 1
  {
    PowerResidue(k);
    var i, j := k / 11, k % 11;
    assert k == 11 * i + j;
    assert forall j | 0 <= j < 11 && (i, j) != (0, 0) :: RESIDUES[i][j] != 1;
  }

  lemma {:induction false} ScaleIsPower(s: string)
    requires Alnum(s)
    ensures Scale(s) == Pow10(|Expand(s)|) && |s| <= |Expand(s)| <= 2 * |s|
  {
    if s != [] {
      ScaleIsPower(s[..|s| - 1]);
      CodeValue(s[|s| - 1]);
      var n := |Expand(s[..|s| - 1])|;
      assert Pow10(n + 1) == 10 * Pow10(n) && Pow10(n + 2) == 100 * Pow10(n);
    }
  }

  lemma InverseCancels(d: int, q: int, inverse: int, m: int)
    requires d * inverse == 97 * m + 1 && (d * q) % 97 == 0
    ensures q % 97 == 0
  {
    var t := d * q / 97;
    assert d * q == 97 * t;
    assert inverse * (d * q) == (97 * m + 1) * q == 97 * (m * q) + q by {
      assert inverse * (d * q) == (d * inverse) * q;
    }
    assert q == 97 * (inverse * t - m * q);
  }

  // 97 is prime: a non-zero digit difference cancels.
  lemma DigitCancels(d: int, q: int)
    requires 1 <= d <= 9 && (d * q) % 97 == 0
    ensures q % 97 == 0
  {
    match d
    case 1 => InverseCancels(1, q, 1, 0);
    case 2 => InverseCancels(2, q, 49, 1);
    case 3 => InverseCancels(3, q, 65, 2);
    case 4 => InverseCancels(4, q, 73, 3);
    case 5 => InverseCancels(5, q, 39, 2);
    case 6 => InverseCancels(6, q, 81, 5);
    case 7 => InverseCancels(7, q, 14, 1);
    case 8 => InverseCancels(8, q, 85, 7);
    case 9 => InverseCancels(9, q, 54, 5);
  }

  // The number of a string with first digit x and last digit y.
  lemma EndsNumber(x: char, mid: string, y: char, wx: int, wy: int, p: int, m: int)
    requires IsDigit(x) && IsDigit(y) && Alnum(mid)
    requires wx == Weight(x) && wy == Weight(y) && p == Scale(mid) * 10 && m == Number(mid) * 10
    ensures Alnum([x] + mid + [y]) && Number([x] + mid + [y]) == wx * p + m + wy
  {
    NumberOne(x);
    NumberOne(y);
    NumberSplit([x], mid, [y], wx * Scale(mid) + Number(mid), 10, wy);
    Distribute(wx, Scale(mid), Number(mid), 10);
  }

  lemma EqualResidues(a: int, b: int, d: int)
    requires a % 97 == b % 97 && a - b == d
    ensures d % 97 == 0
  {
  }

  lemma EndsSwapResidue(x: int, y: int, p: int, m: int, n: int, n': int)
    requires 0 <= y < x <= 9 && n == x * p + m + y && n' == y * p + m + x && n % 97 == n' % 97
    ensures p % 97 == 1
  {
    var d, q := x - y, p - 1;
    SwapDifference(x, y, p, m);
    EqualResidues(n, n', d * q);
    DigitCancels(d, q);
    NextResidue(q);
  }

  lemma SwapDifference(x: int, y: int, p: int, m: int)
    ensures (x * p + m + y) - (y * p + m + x) == (x - y) * (p - 1)
  {
  }

  lemma NextResidue(q: int)
    requires q % 97 == 0
    ensures (q + 1) % 97 == 1
  {
  }

  lemma EndsDiffer(x: int, y: int, p: int, m: int, n: int, n': int)
    requires 0 <= x <= 9 && 0 <= y <= 9 && x != y && p % 97 != 1
    requires n == x * p + m + y && n' == y * p + m + x
    ensures n % 97 != n' % 97
  {
    if n % 97 == n' % 97 {
      if x > y { EndsSwapResidue(x, y, p, m, n, n'); } else { EndsSwapResidue(y, x, p, m, n', n); }
    }
  }

  lemma OuterSplit(s: string)
    requires WellFormed(s)
    ensures Rearranged(s) == [s[4]] + (s[5..] + s[..3]) + [s[3]]
    ensures Rearranged(Swapped(s, 3)) == [s[3]] + (s[5..] + s[..3]) + [s[4]]
    ensures Alnum(s[5..] + s[..3]) && |s[5..] + s[..3]| <= 32
  {
    WellFormedAlnum(s);
    forall c | c in s[5..] + s[..3] ensures IsAlnum(c) {
      assert c in s[5..] || c in s[..3];
    }
  }

  lemma EndScale(mid: string)
    requires Alnum(mid) && |mid| <= 32
    ensures Scale(mid) * 10 % 97 != 1
  {
    hide Scale, Expand;
    ScaleIsPower(mid);
    PowersOfTen(|Expand(mid)| + 1);
  }

  lemma WeightInjective(x: char, y: char)
    requires SameKind(x, y) && x != y
    ensures Weight(x) != Weight(y)
  {
  }

  lemma OuterResidue(x: char, mid: string, y: char)
    requires IsDigit(x) && IsDigit(y) && x != y && Alnum(mid) && |mid| <= 32
    requires Alnum([x] + mid + [y]) && Alnum([y] + mid + [x])
    ensures Number([x] + mid + [y]) % 97 != Number([y] + mid + [x]) % 97
  {
    var wx, wy, p, m := Weight(x), Weight(y), Scale(mid) * 10, Number(mid) * 10;
    WeightInjective(x, y);
    EndsNumber(x, mid, y, wx, wy, p, m);
    EndsNumber(y, mid, x, wy, wx, p, m);
    EndScale(mid);
    EndsDiffer(wx, wy, p, m, Number([x] + mid + [y]), Number([y] + mid + [x]));
  }

  // Swapping the last check digit with a different digit that follows it.
  lemma OuterSwapDetected(s: string)
    requires Valid(s) && SameKind(s[3], s[4]) && s[3] != s[4]
    ensures !Valid(Swapped(s, 3))
  {
    if Valid(Swapped(s, 3)) {
      WellFormedAlnum(s);
      WellFormedAlnum(Swapped(s, 3));
      OuterSplit(s);
      OuterResidue(s[4], s[5..] + s[..3], s[3]);
    }
  }

  // Swapping two different neighbours of one kind is always detected.
  lemma SwapDetected(s: string, i: nat)
    requires Valid(s) && i + 1 < |s| && SameKind(s[i], s[i + 1]) && s[i] != s[i + 1]
    ensures !Valid(Swapped(s, i))
  {
    if i == 3 { OuterSwapDetected(s); } else { InnerSwapDetected(s, i); }
  }

  // ----- Check digits ----------------------------------------------------------------------------

  function TwoDigits(k: nat): string
    requires k < 100
  {
    [DigitChar(k / 10), DigitChar(k % 10)]
  }

  function Account(country: string, k: nat, bban: string): string
    requires k < 100
  {
    country + TwoDigits(k) + bban
  }

  // The check digits of a country and an account number, between 02 and 98.
  function CheckDigits(country: string, bban: string): (k: nat)
    requires Alnum(bban + country)
    ensures 2 <= k <= 98
  {
    98 - Number(bban + country) * 100 % 97
  }

  lemma AccountNumber(country: string, k: nat, bban: string)
    requires |country| == 2 && k < 100 && Alnum(bban + country)
    ensures Rearranged(Account(country, k, bban)) == bban + country + TwoDigits(k)
    ensures Alnum(bban + country + TwoDigits(k))
    ensures Number(bban + country + TwoDigits(k)) == Number(bban + country) * 100 + k
  {
    var s := Account(country, k, bban);
    assert s[4..] == bban && s[..4] == country + TwoDigits(k);
    assert s[4..] + s[..4] == bban + country + TwoDigits(k);
    NumberConcat(bban + country, TwoDigits(k));
    NumberTwo(DigitChar(k / 10), DigitChar(k % 10));
  }

  lemma AddMultiple(t: int, z: int)
    requires 0 <= z < 196
    ensures (97 * t + z) % 97 == 1 <==> z == 1 || z == 98 || z == 195
  {
    assert (97 * t + z) % 97 == z % 97;
  }

  lemma CheckResidue(n: nat, k: nat)
    requires k < 100
    ensures (n * 100 + k) % 97 == 1 <==> k % 97 == (98 - n * 100 % 97) % 97
    ensures 2 <= k <= 98 ==> ((n * 100 + k) % 97 == 1 <==> k == 98 - n * 100 % 97)
  {
    CheckResidueOf(n * 100, k, n * 100 / 97, n * 100 % 97);
  }

  lemma CheckResidueOf(m: int, k: nat, t: int, r: int)
    requires k < 100 && m == 97 * t + r && 0 <= r < 97
    ensures (m + k) % 97 == 1 <==> k % 97 == (98 - r) % 97
    ensures 2 <= k <= 98 ==> ((m + k) % 97 == 1 <==> k == 98 - r)
  {
    AddMultiple(t, r + k);
    assert m + k == 97 * t + (r + k);
    SmallResidues(k, r);
  }

  lemma SmallResidues(k: int, r: int)
    requires 0 <= k < 100 && 0 <= r < 97
    ensures r + k == 1 || r + k == 98 || r + k == 195 <==> k % 97 == (98 - r) % 97
  {
    assert k % 97 == if k < 97 then k else k - 97;
    assert (98 - r) % 97 == if r < 2 then 1 - r else 98 - r;
  }

  // Exactly one pair in 02..98 validates; of the hundred pairs only those in its residue class do.
  lemma CheckDigitsUnique(country: string, bban: string, k: nat)
    requires |country| == 2 && IsLetter(country[0]) && IsLetter(country[1]) && 11 <= |bban| <= 30 && Alnum(bban)
    requires k < 100
    ensures Alnum(bban + country)
    ensures Valid(Account(country, k, bban)) <==> k % 97 == CheckDigits(country, bban) % 97
    ensures 2 <= k <= 98 ==> (Valid(Account(country, k, bban)) <==> k == CheckDigits(country, bban))
  {
    var s := Account(country, k, bban);
    assert Alnum(bban + country) by {
      assert country == [country[0], country[1]];
    }
    assert s[4..] == bban && WellFormed(s);
    AccountNumber(country, k, bban);
    CheckResidue(Number(bban + country), k);
  }
}
