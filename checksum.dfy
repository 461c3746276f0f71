/**
 * `ValidationUtils.IsValidCPF` and `IsValidCNPJ` (utils.go): the modulo-11
 * check digits of Brazilian taxpayer numbers. Both keep only the ASCII
 * digits, demand a fixed length, reject a number made of one repeated
 * digit, and compare two check digits with weighted sums of the digits
 * before them.
 */
module Checksum {
  import opened Strings

  const CpfLength: nat := 11
  const CnpjLength: nat := 14

  /** Weights 10 down to 2 for the first CPF check digit, 11 down to 2 for the second. */
  const CpfWeights1: seq<nat> := [10, 9, 8, 7, 6, 5, 4, 3, 2]
  const CpfWeights2: seq<nat> := [11, 10, 9, 8, 7, 6, 5, 4, 3, 2]
  const CnpjWeights1: seq<nat> := [5, 4, 3, 2, 9, 8, 7, 6, 5, 4, 3, 2]
  const CnpjWeights2: seq<nat> := [6, 5, 4, 3, 2, 9, 8, 7, 6, 5, 4, 3, 2]

  /** The sum of the first `n` digits of `d`, each times its weight. */
  function WeightedSum(d: string, w: seq<nat>, n: nat): nat
    requires AllDigits(d) && n <= |d| && n <= |w|
  {
    if n == 0 then 0 else WeightedSum(d, w, n - 1) + DigitValue(d[n - 1]) * w[n - 1]
  }

  /** The check digit of a weighted sum: 0 when the remainder modulo 11 is below 2, else 11 minus it. */
  function CheckDigit(sum: nat): (c: nat)
    ensures c < 10
  {
    if sum % 11 < 2 then 0 else 11 - sum % 11
  }

  /** One digit repeated: the ten literal strings both validators refuse. */
  predicate AllSame(d: string) {
    forall i :: 0 <= i < |d| ==> d[i] == d[0]
  }

  /** Both check digits of a digit string agree with the base before them. */
  predicate CheckDigitsHold(d: string, w1: seq<nat>, w2: seq<nat>)
    requires AllDigits(d) && |d| == |w1| + 2 && |w2| == |w1| + 1
  {
    var k := |w1|;
    DigitValue(d[k]) == CheckDigit(WeightedSum(d, w1, k))
    && DigitValue(d[k + 1]) == CheckDigit(WeightedSum(d, w2, k + 1))
  }

  /** What `IsValidCPF` accepts. */
  predicate ValidCPF(s: string) {
    var d := Digits(s);
    |d| == CpfLength && !AllSame(d) && CheckDigitsHold(d, CpfWeights1, CpfWeights2)
  }

  /** What `IsValidCNPJ` accepts. */
  predicate ValidCNPJ(s: string) {
    var d := Digits(s);
    |d| == CnpjLength && !AllSame(d) && CheckDigitsHold(d, CnpjWeights1, CnpjWeights2)
  }

  /** One check-digit step: the weighted-sum loop and the comparison that follows it. */
  method CheckDigitMatches(d: string, w: seq<nat>) returns (ok: bool)
    requires AllDigits(d) && |w| < |d|
    ensures ok <==> DigitValue(d[|w|]) == CheckDigit(WeightedSum(d, w, |w|))
  {
    var sum := 0;
    var i := 0;
    while i < |w|
      invariant 0 <= i <= |w|
      invariant sum == WeightedSum(d, w, i)
    {
      sum := sum + DigitValue(d[i]) * w[i];
      i := i + 1;
    }
    var remainder := sum % 11;
    if remainder < 2 {
      ok := d[|w|] == '0';
    } else {
      ok := DigitValue(d[|w|]) == 11 - remainder;
    }
  }

  /** Whether all characters equal the first, by a scan. */
  method IsAllSame(d: string) returns (same: bool)
    ensures same <==> AllSame(d)
  {
    var i := 0;
    while i < |d|
      invariant 0 <= i <= |d|
      invariant forall j :: 0 <= j < i ==> d[j] == d[0]
    {
      if d[i] != d[0] {
        return false;
      }
      i := i + 1;
    }
    return true;
  }

  /** `IsValidCPF`, lines 180-235. */
  method IsValidCPF(cpf: string) returns (ok: bool)
    ensures ok <==> ValidCPF(cpf)
  {
    var d := Digits(cpf);
    if |d| != CpfLength {
      return false;
    }
    var same := IsAllSame(d);
    if same {
      return false;
    }
    ok := CheckDigitMatches(d, CpfWeights1);
    if !ok {
      return false;
    }
    ok := CheckDigitMatches(d, CpfWeights2);
  }

  /** `IsValidCNPJ`, lines 238-295. */
  method IsValidCNPJ(cnpj: string) returns (ok: bool)
    ensures ok <==> ValidCNPJ(cnpj)
  {
    var d := Digits(cnpj);
    if |d| != CnpjLength {
      return false;
    }
    var same := IsAllSame(d);
    if same {
      return false;
    }
    ok := CheckDigitMatches(d, CnpjWeights1);
    if !ok {
      return false;
    }
    ok := CheckDigitMatches(d, CnpjWeights2);
  }

  // ---------------------------------------------------------------------
  // Properties of the check-digit scheme
  // ---------------------------------------------------------------------

  lemma {:induction false} WeightedSumPrefix(d: string, e: string, w: seq<nat>, n: nat)
    requires AllDigits(d) && AllDigits(e) && n <= |d| && n <= |e| && n <= |w|
    requires d[..n] == e[..n]
    ensures WeightedSum(d, w, n) == WeightedSum(e, w, n)
  {
    if n > 0 {
      assert d[n - 1] == d[..n][n - 1] == e[..n][n - 1] == e[n - 1];
      assert d[..n - 1] == d[..n][..n - 1] == e[..n][..n - 1] == e[..n - 1];
      WeightedSumPrefix(d, e, w, n - 1);
    }
  }

  /** The base of a number determines both check digits: two valid numbers with the same base are equal. */
  lemma CheckDigitsDetermined(d: string, e: string, w1: seq<nat>, w2: seq<nat>)
    requires AllDigits(d) && AllDigits(e) && |d| == |e| == |w1| + 2 && |w2| == |w1| + 1
    requires CheckDigitsHold(d, w1, w2) && CheckDigitsHold(e, w1, w2)
    requires d[..|w1|] == e[..|w1|]
    ensures d == e
  {
    var k := |w1|;
    WeightedSumPrefix(d, e, w1, k);
    assert DigitChar(DigitValue(d[k])) == d[k] && DigitChar(DigitValue(e[k])) == e[k];
    assert d[..k + 1] == d[..k] + [d[k]] && e[..k + 1] == e[..k] + [e[k]];
    WeightedSumPrefix(d, e, w2, k + 1);
    assert DigitChar(DigitValue(d[k + 1])) == d[k + 1] && DigitChar(DigitValue(e[k + 1])) == e[k + 1];
    assert d == d[..k + 1] + [d[k + 1]] && e == e[..k + 1] + [e[k + 1]];
  }

  /** Changing only a check digit of a valid CPF makes it invalid. */
  lemma AlteredCheckDigitCPF(s: string, pos: nat, c: char)
    requires ValidCPF(s) && pos in {9, 10} && IsDigit(c) && c != Digits(s)[pos]
    ensures !ValidCPF(Digits(s)[pos := c])
  {
    var d := Digits(s);
    var e := d[pos := c];
    assert AllDigits(e);
    DigitsOfDigits(e);
    assert e[..9] == d[..9];
    if ValidCPF(e) {
      CheckDigitsDetermined(d, e, CpfWeights1, CpfWeights2);
    }
  }

  /** Changing only a check digit of a valid CNPJ makes it invalid. */
  lemma AlteredCheckDigitCNPJ(s: string, pos: nat, c: char)
    requires ValidCNPJ(s) && pos in {12, 13} && IsDigit(c) && c != Digits(s)[pos]
    ensures !ValidCNPJ(Digits(s)[pos := c])
  {
    var d := Digits(s);
    var e := d[pos := c];
    assert AllDigits(e);
    DigitsOfDigits(e);
    assert e[..12] == d[..12];
    if ValidCNPJ(e) {
      CheckDigitsDetermined(d, e, CnpjWeights1, CnpjWeights2);
    }
  }

  /** Punctuation is ignored: a number is valid exactly when its digits alone are. */
  lemma PunctuationIgnored(s: string)
    ensures ValidCPF(s) <==> ValidCPF(Digits(s))
    ensures ValidCNPJ(s) <==> ValidCNPJ(Digits(s))
  {
    DigitsOfDigits(Digits(s));
  }

  /** The sum of the first `n` weights. */
  function WeightTotal(w: seq<nat>, n: nat): nat
    requires n <= |w|
  {
    if n == 0 then 0 else WeightTotal(w, n - 1) + w[n - 1]
  }

  /** A weighted sum over one repeated digit is that digit times the sum of the weights. */
  lemma {:induction false} WeightedSumSame(d: string, w: seq<nat>, n: nat)
    requires AllDigits(d) && n <= |d| && n <= |w| && AllSame(d) && d != []
    ensures WeightedSum(d, w, n) == DigitValue(d[0]) * WeightTotal(w, n)
  {
    if n > 0 {
      WeightedSumSame(d, w, n - 1);
    }
  }

  /**
   * Every CPF of one repeated digit satisfies both check digits, so the
   * repeated-digit test is what rejects "111.111.111-11" and its kind.
   */
  lemma RepeatedDigitCPFPassesChecksum(d: string)
    requires |d| == CpfLength && AllDigits(d) && AllSame(d)
    ensures CheckDigitsHold(d, CpfWeights1, CpfWeights2)
    ensures !ValidCPF(d)
  {
    WeightedSumSame(d, CpfWeights1, 9);
    WeightedSumSame(d, CpfWeights2, 10);
    CpfWeightTotals();
    assert d[9] == d[0] && d[10] == d[0];
    RepeatedCheckDigits(DigitValue(d[0]));
    DigitsOfDigits(d);
  }

  lemma CpfWeightTotals()
    ensures WeightTotal(CpfWeights1, 9) == 54 && WeightTotal(CpfWeights2, 10) == 65
  {
  }

  /** For a CPF of one digit `v`, the weighted sums are 54v and 65v, and both check digits come out as `v`. */
  lemma RepeatedCheckDigits(v: nat)
    requires v < 10
    ensures CheckDigit(54 * v) == v && CheckDigit(65 * v) == v
  {
    assert v in {0, 1, 2, 3, 4, 5, 6, 7, 8, 9};
  }

  /** The all-zero CNPJ satisfies both check digits; only the repeated-digit test rejects it. */
  lemma ZeroCNPJPassesChecksum(d: string)
    requires |d| == CnpjLength && AllDigits(d) && AllSame(d) && d[0] == '0'
    ensures CheckDigitsHold(d, CnpjWeights1, CnpjWeights2)
    ensures !ValidCNPJ(d)
  {
    WeightedSumSame(d, CnpjWeights1, 12);
    WeightedSumSame(d, CnpjWeights2, 13);
    assert d[12] == d[0] && d[13] == d[0];
    DigitsOfDigits(d);
  }
}
