/**
  Card numbers and security codes: the Luhn check of ISO/IEC 7812-1 Annex B and the CVV format.

  A Go string is its sequence of bytes; here every `char` stands for one byte.
 */
module Card {

  predicate IsDigit(c: char) {
    '0' <= c <= '9'
  }

  predicate AllDigits(s: string) {
    forall i :: 0 <= i < |s| ==> IsDigit(s[i])
  }

  function DigitOf(c: char): (d: nat)
    requires IsDigit(c)
    ensures d <= 9
  {
    c as nat - '0' as nat
  }

  /** Twice a digit with the two decimal digits of the product added up. */
  function Doubled(d: nat): (r: nat)
    requires d <= 9
    ensures r <= 9
    ensures r % 9 == (2 * d) % 9
  {
    if 2 * d > 9 then 2 * d - 9 else 2 * d
  }

  function Weigh(c: char, alt: bool): nat
    requires IsDigit(c)
  {
    if alt then Doubled(DigitOf(c)) else DigitOf(c)
  }

  /** The weighted digit sum; `alt` says whether the last digit is a doubled one. */
  function LuhnSum(s: string, alt: bool): nat
    requires AllDigits(s)
  {
    if s == "" then 0 else Weigh(s[|s| - 1], alt) + LuhnSum(s[..|s| - 1], !alt)
  }

  predicate ValidPAN(pan: string) {
    && 13 <= |pan| <= 19
    && AllDigits(pan)
    && LuhnSum(pan, false) % 10 == 0
  }

  predicate ValidCVV(cvv: string) {
    3 <= |cvv| <= 4 && AllDigits(cvv)
  }

  lemma DoubledDigits(d: nat)
    requires d <= 9
    ensures Doubled(d) == 2 * d / 10 + 2 * d % 10
  {
  }

  /** Two more digits add the last one and the two decimal digits of twice the one before it; nothing adds nothing. */
  lemma LuhnByPairs(s: string, a: char, b: char)
    requires AllDigits(s) && IsDigit(a) && IsDigit(b)
    ensures LuhnSum("", false) == 0 && LuhnSum([b], false) == b as int - 48
    ensures AllDigits(s + [a, b])
    ensures var d := a as int - 48;
      LuhnSum(s + [a, b], false) == LuhnSum(s, false) + 2 * d / 10 + 2 * d % 10 + (b as int - 48)
  {
    DoubledDigits(DigitOf(a));
    assert [b][..0] == "";
    assert (s + [a, b])[..|s| + 1] == s + [a];
    assert (s + [a])[..|s|] == s;
  }

  /** A security code is three or four characters with the codes 48 to 57. */
  lemma CVVFormat(cvv: string)
    ensures ValidCVV(cvv) <==> (|cvv| == 3 || |cvv| == 4) && forall c :: c in cvv ==> 48 <= c as int < 58
  {
    if forall c :: c in cvv ==> 48 <= c as int < 58 {
      assert forall i :: 0 <= i < |cvv| ==> cvv[i] in cvv;
    }
  }

  /** A card number is 13 to 19 characters with the codes 48 to 57 whose Luhn sum ends in 0. */
  lemma PANFormat(pan: string)
    ensures ValidPAN(pan)
       <==> 12 < |pan| < 20 && (forall c :: c in pan ==> 48 <= c as int < 58)
            && AllDigits(pan) && exists tens: nat :: LuhnSum(pan, false) == 10 * tens
  {
    if ValidPAN(pan) {
      assert LuhnSum(pan, false) == 10 * (LuhnSum(pan, false) / 10);
    }
  }

  /** The handler's loop, from the last byte to the first. */
  method ValidatePAN(pan: string) returns (ok: bool)
    ensures ok <==> ValidPAN(pan)
  {
    var n := |pan|;
    if n < 13 || n > 19 {
      return false;
    }
    var sum, alt := 0, false;
    var i := n - 1;
    assert pan[..i + 1] == pan;
    while i >= 0
      invariant -1 <= i < n
      invariant forall k :: i < k < n ==> IsDigit(pan[k])
      invariant AllDigits(pan) ==> sum + LuhnSum(pan[..i + 1], alt) == LuhnSum(pan, false)
    {
      if !IsDigit(pan[i]) {
        return false;
      }
      var d := DigitOf(pan[i]);
      if alt {
        d := d * 2;
        if d > 9 {
          d := d - 9;
        }
      }
      assert pan[..i + 1][..i] == pan[..i];
      sum := sum + d;
      alt := !alt;
      i := i - 1;
    }
    assert pan[..0] == "";
    return sum % 10 == 0;
  }

  method ValidateCVV(cvv: string) returns (ok: bool)
    ensures ok <==> ValidCVV(cvv)
  {
    var n := |cvv|;
    if n < 3 || n > 4 {
      return false;
    }
    for i := 0 to n
      invariant AllDigits(cvv[..i])
    {
      if cvv[i] < '0' || cvv[i] > '9' {
        return false;
      }
    }
    assert cvv[..n] == cvv;
    return true;
  }

  /** Whether position `i` of an `n`-digit number is doubled when the last digit's flag is `alt`. */
  predicate Alternate(n: nat, i: nat, alt: bool)
    requires i < n
  {
    ((n - 1 - i) % 2 == 0) == alt
  }

  /** Replacing one digit moves the sum by the difference of the two weights. */
  lemma {:induction false} SumAfterChange(s: string, i: nat, c: char, alt: bool)
    requires i < |s| && AllDigits(s) && IsDigit(c)
    ensures AllDigits(s[i := c])
    ensures LuhnSum(s[i := c], alt) - LuhnSum(s, alt)
         == Weigh(c, Alternate(|s|, i, alt)) - Weigh(s[i], Alternate(|s|, i, alt))
  {
    var n := |s| - 1;
    if i == n {
      assert s[i := c][..n] == s[..n];
    } else {
      assert s[i := c][..n] == s[..n][i := c];
      SumAfterChange(s[..n], i, c, !alt);
    }
  }

  lemma WeightsDiffer(a: char, b: char, alt: bool)
    requires IsDigit(a) && IsDigit(b) && a != b
    ensures (Weigh(a, alt) - Weigh(b, alt)) % 10 != 0
  {
    var x: int, y: int := DigitOf(a), DigitOf(b);
    assert x != y;
    assert Weigh(a, alt) != Weigh(b, alt);
  }

  /** No single wrong digit goes unnoticed. */
  lemma SingleDigitChangeRejected(pan: string, i: nat, c: char)
    requires ValidPAN(pan) && i < |pan| && c != pan[i]
    ensures !ValidPAN(pan[i := c])
  {
    if IsDigit(c) {
      var alt := Alternate(|pan|, i, false);
      SumAfterChange(pan, i, c, false);
      WeightsDiffer(c, pan[i], alt);
      SameRemainder(LuhnSum(pan[i := c], false), LuhnSum(pan, false), Weigh(c, alt) - Weigh(pan[i], alt));
    } else {
      assert pan[i := c][i] == c;
    }
  }

  function Swapped(s: string, i: nat): string
    requires i + 1 < |s|
  {
    s[i := s[i + 1]][i + 1 := s[i]]
  }

  /** What swapping `a` and `b` adds to the sum when `alt` is the flag of the first position. */
  function SwapDelta(a: char, b: char, alt: bool): int
    requires IsDigit(a) && IsDigit(b)
  {
    Weigh(b, alt) - Weigh(a, alt) + Weigh(a, !alt) - Weigh(b, !alt)
  }

  lemma SumAfterSwap(s: string, i: nat)
    requires i + 1 < |s| && AllDigits(s)
    ensures AllDigits(Swapped(s, i))
    ensures LuhnSum(Swapped(s, i), false) - LuhnSum(s, false)
         == SwapDelta(s[i], s[i + 1], Alternate(|s|, i, false))
  {
    var a, b := s[i], s[i + 1];
    SumAfterChange(s, i, b, false);
    SumAfterChange(s[i := b], i + 1, a, false);
    NeighboursAlternate(|s|, i);
  }

  lemma NeighboursAlternate(n: nat, i: nat)
    requires i + 1 < n
    ensures Alternate(n, i + 1, false) == !Alternate(n, i, false)
  {
  }

  lemma SwapWeights(a: char, b: char, alt: bool)
    requires IsDigit(a) && IsDigit(b)
    ensures SwapDelta(a, b, alt) % 10 == 0
       <==> a == b || (a == '0' && b == '9') || (a == '9' && b == '0')
  {
    var x: int, y: int := DigitOf(a), DigitOf(b);
    assert a == b <==> x == y;
  }

  lemma SameRemainder(after: nat, before: nat, delta: int)
    requires before % 10 == 0 && after - before == delta
    ensures after % 10 == 0 <==> delta % 10 == 0
  {
  }

  /** Swapping two neighbours goes unnoticed exactly when they are equal or are a 0 and a 9. */
  lemma AdjacentSwap(pan: string, i: nat)
    requires ValidPAN(pan) && i + 1 < |pan|
    ensures ValidPAN(Swapped(pan, i))
       <==> pan[i] == pan[i + 1] || (pan[i] == '0' && pan[i + 1] == '9') || (pan[i] == '9' && pan[i + 1] == '0')
  {
    SumAfterSwap(pan, i);
    var delta := SwapDelta(pan[i], pan[i + 1], Alternate(|pan|, i, false));
    SwapWeights(pan[i], pan[i + 1], Alternate(|pan|, i, false));
    SameRemainder(LuhnSum(Swapped(pan, i), false), LuhnSum(pan, false), delta);
  }

  lemma SumWithLast(payload: string, c: char)
    requires AllDigits(payload) && IsDigit(c)
    ensures AllDigits(payload + [c]) && LuhnSum(payload + [c], false) == DigitOf(c) + LuhnSum(payload, true)
  {
    assert (payload + [c])[..|payload|] == payload;
  }

  lemma LastDigit(payload: string, c: char)
    requires 12 <= |payload| <= 18 && AllDigits(payload)
    ensures ValidPAN(payload + [c]) <==> IsDigit(c) && (DigitOf(c) + LuhnSum(payload, true)) % 10 == 0
  {
    if IsDigit(c) {
      SumWithLast(payload, c);
    } else {
      assert (payload + [c])[|payload|] == c;
    }
  }

  lemma OneDigitCompletes(rest: nat, x: int)
    requires 0 <= x <= 9
    ensures (x + rest) % 10 == 0 <==> x == (10 - rest % 10) % 10
  {
  }

  /** Every payload of 12 to 18 digits has one check digit and only one. */
  lemma CheckDigitUnique(payload: string)
    requires 12 <= |payload| <= 18 && AllDigits(payload)
    ensures exists c :: ValidPAN(payload + [c])
    ensures forall c, c' :: ValidPAN(payload + [c]) && ValidPAN(payload + [c']) ==> c == c'
  {
    var rest := LuhnSum(payload, true);
    var d := (10 - rest % 10) % 10;
    var check := (d + 48) as char;
    OneDigitCompletes(rest, d);
    LastDigit(payload, check);
    assert ValidPAN(payload + [check]);
    forall c | ValidPAN(payload + [c])
      ensures c == check
    {
      LastDigit(payload, c);
      OneDigitCompletes(rest, DigitOf(c));
    }
  }
}
