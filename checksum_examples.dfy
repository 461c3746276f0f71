/** The CPF and CNPJ numbers of the validation tests. */
module ChecksumExamples {
  import opened Strings
  import opened Checksum

  lemma Punctuation(a: string, p: char, b: string)
    requires AllDigits(a) && !IsDigit(p)
    ensures Digits(a + [p] + b) == a + Digits(b)
  {
    DigitsAppend(a + [p], b);
    DigitsAppend(a, [p]);
    DigitsOfDigits(a);
    assert Digits([p]) == [];
    assert a + [] == a;
  }

  lemma CpfText(last: string)
    requires |last| == 2 && AllDigits(last)
    ensures Digits("123.456.789-" + last) == "123456789" + last
  {
    var c := "789" + ['-'] + last;
    var b := "456" + ['.'] + c;
    var a := "123" + ['.'] + b;
    assert "123.456.789-" + last == a;
    DigitsOfDigits(last);
    Punctuation("789", '-', last);
    Punctuation("456", '.', c);
    Punctuation("123", '.', b);
    assert Digits(a) == "123" + ("456" + ("789" + last));
    assert "123" + ("456" + ("789" + last)) == "123456789" + last;
  }

  lemma CnpjTail(last: string)
    requires |last| == 2 && AllDigits(last)
    ensures Digits("333/0001-" + last) == "3330001" + last
  {
    var c := "0001" + ['-'] + last;
    var b := "333" + ['/'] + c;
    assert "333/0001-" + last == b;
    DigitsOfDigits(last);
    Punctuation("0001", '-', last);
    Punctuation("333", '/', c);
    assert Digits(b) == "333" + ("0001" + last);
    assert "333" + ("0001" + last) == "3330001" + last;
  }

  lemma CnpjHead(tail: string)
    ensures Digits("11.222." + tail) == "11222" + Digits(tail)
  {
    var b := "222" + ['.'] + tail;
    assert "11.222." + tail == "11" + ['.'] + b;
    Punctuation("222", '.', tail);
    Punctuation("11", '.', b);
    assert "11" + ("222" + Digits(tail)) == "11222" + Digits(tail);
  }

  lemma CnpjText(last: string)
    requires |last| == 2 && AllDigits(last)
    ensures Digits("11.222.333/0001-" + last) == "112223330001" + last
  {
    var tail := "333/0001-" + last;
    assert "11.222.333/0001-" + last == "11.222." + tail;
    CnpjHead(tail);
    CnpjTail(last);
    assert "11222" + ("3330001" + last) == "112223330001" + last;
  }

  lemma CpfSum1() ensures WeightedSum("12345678909", CpfWeights1, 9) == 210 {
    assert WeightedSum("12345678909", CpfWeights1, 5) == 110;
  }
  lemma CpfSum2() ensures WeightedSum("12345678909", CpfWeights2, 10) == 255 {
    assert WeightedSum("12345678909", CpfWeights2, 5) == 125;
  }
  lemma CnpjSum1() ensures WeightedSum("11222333000181", CnpjWeights1, 12) == 102 {
    assert WeightedSum("11222333000181", CnpjWeights1, 4) == 19;
    assert WeightedSum("11222333000181", CnpjWeights1, 8) == 100;
  }
  lemma CnpjSum2() ensures WeightedSum("11222333000181", CnpjWeights2, 13) == 120 {
    assert WeightedSum("11222333000181", CnpjWeights2, 4) == 25;
    assert WeightedSum("11222333000181", CnpjWeights2, 8) == 101;
  }

  lemma CpfChecks(d: string)
    requires d == "12345678909"
    ensures AllDigits(d) && |d| == CpfLength
    ensures CheckDigitsHold(d, CpfWeights1, CpfWeights2)
  {
    assert AllDigits(d) && |d| == CpfLength;
    CpfSum1();
    CpfSum2();
    assert DigitValue(d[9]) == 0 == CheckDigit(210);
    assert DigitValue(d[10]) == 9 == CheckDigit(255);
  }

  lemma CpfDigitsValid(d: string)
    requires d == "12345678909"
    ensures ValidCPF(d)
  {
    CpfChecks(d);
    DigitsOfDigits(d);
    assert d[1] != d[0];
  }

  lemma CpfDigitsInvalid(d: string)
    requires d == "12345678910"
    ensures !ValidCPF(d)
  {
    var v := "12345678909";
    assert AllDigits(d) && AllDigits(v);
    DigitsOfDigits(d);
    assert d[..9] == v[..9];
    WeightedSumPrefix(v, d, CpfWeights1, 9);
    CpfSum1();
    assert CheckDigit(210) == 0 && DigitValue(d[9]) == 1;
  }

  lemma CnpjChecks(d: string)
    requires d == "11222333000181"
    ensures AllDigits(d) && |d| == CnpjLength
    ensures CheckDigitsHold(d, CnpjWeights1, CnpjWeights2)
  {
    assert AllDigits(d) && |d| == CnpjLength;
    CnpjSum1();
    CnpjSum2();
    assert DigitValue(d[12]) == 8 == CheckDigit(102);
    assert DigitValue(d[13]) == 1 == CheckDigit(120);
  }

  lemma CnpjDigitsValid(d: string)
    requires d == "11222333000181"
    ensures ValidCNPJ(d)
  {
    CnpjChecks(d);
    DigitsOfDigits(d);
    assert d[2] != d[0];
  }

  lemma CnpjDigitsInvalid(d: string)
    requires d == "11222333000182"
    ensures !ValidCNPJ(d)
  {
    var v := "11222333000181";
    assert AllDigits(d) && AllDigits(v);
    DigitsOfDigits(d);
    assert d[..13] == v[..13];
    WeightedSumPrefix(v, d, CnpjWeights2, 13);
    CnpjSum2();
    assert CheckDigit(120) == 1 && DigitValue(d[13]) == 2;
  }

  lemma CpfByDigits(s: string, d: string)
    requires Digits(s) == d
    ensures ValidCPF(s) <==> ValidCPF(d)
  {
    PunctuationIgnored(s);
  }

  lemma CnpjByDigits(s: string, d: string)
    requires Digits(s) == d
    ensures ValidCNPJ(s) <==> ValidCNPJ(d)
  {
    PunctuationIgnored(s);
  }

  /** "123.456.789-09" is a valid CPF. */
  lemma ExampleValidCPF()
    ensures ValidCPF("123.456.789-09")
  {
    CpfText("09");
    assert "123.456.789-" + "09" == "123.456.789-09";
    assert "123456789" + "09" == "12345678909";
    CpfDigitsValid("12345678909");
    CpfByDigits("123.456.789-09", "12345678909");
  }

  /** "123.456.789-10" is not. */
  lemma ExampleInvalidCPF()
    ensures !ValidCPF("123.456.789-10")
  {
    CpfText("10");
    assert "123.456.789-" + "10" == "123.456.789-10";
    assert "123456789" + "10" == "12345678910";
    CpfDigitsInvalid("12345678910");
    CpfByDigits("123.456.789-10", "12345678910");
  }

  /** "11.222.333/0001-81" is a valid CNPJ. */
  lemma ExampleValidCNPJ()
    ensures ValidCNPJ("11.222.333/0001-81")
  {
    CnpjText("81");
    assert "11.222.333/0001-" + "81" == "11.222.333/0001-81";
    assert "112223330001" + "81" == "11222333000181";
    CnpjDigitsValid("11222333000181");
    CnpjByDigits("11.222.333/0001-81", "11222333000181");
  }

  /** "11.222.333/0001-82" is not. */
  lemma ExampleInvalidCNPJ()
    ensures !ValidCNPJ("11.222.333/0001-82")
  {
    CnpjText("82");
    assert "11.222.333/0001-" + "82" == "11.222.333/0001-82";
    assert "112223330001" + "82" == "11222333000182";
    CnpjDigitsInvalid("11222333000182");
    CnpjByDigits("11.222.333/0001-82", "11222333000182");
  }
}
