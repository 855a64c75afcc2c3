/** The Luhn modulus-10 formula of ISO/IEC 7812-1 (Annex B), stated once over digit values
    and shared by both card-number validators. Positions are counted from the rightmost
    digit: the rightmost is kept, the one left of it doubled, and so on alternately; a
    doubled value above 9 has 9 subtracted; the number is valid when the sum is a multiple
    of 10. */
module Luhn {

  /** The contribution of one digit value, doubled or not. */
  function Term(d: int, doubled: bool): int
  {
    if !doubled then d else if 2 * d > 9 then 2 * d - 9 else 2 * d
  }

  /** The Luhn sum of `ds`, where `doubleLast` says whether the rightmost value is doubled;
      doubling alternates going left. */
  function LuhnSum(ds: seq<int>, doubleLast: bool): int
    decreases |ds|
  {
    if ds == [] then 0
    else LuhnSum(ds[..|ds| - 1], !doubleLast) + Term(ds[|ds| - 1], doubleLast)
  }

  /** The formula's verdict: the rightmost digit is not doubled and the sum ends in 0. */
  predicate LuhnValid(ds: seq<int>)
  {
    LuhnSum(ds, false) % 10 == 0
  }

  /** Whether the value at index `k` of a length-`n` sequence is doubled. */
  predicate DoubledAt(n: int, k: int, doubleLast: bool)
  {
    if (n - 1 - k) % 2 == 0 then doubleLast else !doubleLast
  }

  predicate IsDigitValue(d: int) { 0 <= d <= 9 }

  /** The check digit that completes a payload (ISO/IEC 7812-1, Annex B). */
  function CheckDigit(payload: seq<int>): (c: int)
    ensures IsDigitValue(c)
  {
    (10 - LuhnSum(payload, true) % 10) % 10
  }

  /** Appending one digit keeps the payload's sum with its last value now doubled. */
  lemma AppendDigit(payload: seq<int>, c: int)
    ensures LuhnSum(payload + [c], false) == LuhnSum(payload, true) + c
  {
    assert (payload + [c])[..|payload|] == payload;
  }

  /** The check digit makes the number valid, and it is the only digit that does. */
  lemma CheckDigitCompletes(payload: seq<int>, c: int)
    requires IsDigitValue(c)
    ensures LuhnValid(payload + [c]) <==> c == CheckDigit(payload)
  {
    AppendDigit(payload, c);
  }

  /** Changing one value changes the sum by exactly the change of that value's term. */
  lemma {:induction false} LuhnSumUpdate(ds: seq<int>, k: int, x: int, doubleLast: bool)
    requires 0 <= k < |ds|
    ensures LuhnSum(ds[k := x], doubleLast) - LuhnSum(ds, doubleLast)
         == Term(x, DoubledAt(|ds|, k, doubleLast)) - Term(ds[k], DoubledAt(|ds|, k, doubleLast))
    decreases |ds|
  {
    var es := ds[k := x];
    var n := |ds|;
    if k == n - 1 {
      assert es[..n - 1] == ds[..n - 1];
    } else {
      assert es[..n - 1] == ds[..n - 1][k := x];
      LuhnSumUpdate(ds[..n - 1], k, x, !doubleLast);
      assert DoubledAt(n - 1, k, !doubleLast) == DoubledAt(n, k, doubleLast);
    }
  }

  /** A single mistyped digit is always detected: two digit strings that differ in exactly
      one place are never both valid. */
  lemma SingleErrorDetected(ds: seq<int>, k: int, x: int)
    requires 0 <= k < |ds| && IsDigitValue(ds[k]) && IsDigitValue(x) && x != ds[k]
    ensures !(LuhnValid(ds) && LuhnValid(ds[k := x]))
  {
    // Over 0..9 the undoubled terms are 0..9 and the doubled ones 0, 2, 4, 6, 8, 1, 3, 5, 7, 9:
    // two different digits never give terms that differ by a multiple of 10.
    LuhnSumUpdate(ds, k, x, false);
  }

  /** The sum as a left-to-right fold: the value at index `i` is doubled exactly when
      `i % 2 == parity`, with `parity` the length's parity. */
  lemma LuhnSumParity(ds: seq<int>, i: int)
    requires 0 <= i < |ds|
    ensures DoubledAt(|ds|, i, false) <==> i % 2 == |ds| % 2
  {
  }
}
