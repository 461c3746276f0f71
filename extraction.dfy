/**
 * `extractDarmData` (darm_processor.go): the fields of a DARM (municipal tax
 * payment slip) read from the text of its PDF.
 *
 * Each field is tried against an ordered list of regular expressions and
 * the first one that matches supplies the value. The regular expressions
 * themselves are not modelled: each is a `Matcher`, the first capture group
 * of its leftmost match or `None`. What RE2 guarantees about the captures
 * (`(\d+)` captures a non-empty run of digits, and so on) is stated as
 * predicates that the lemmas take as hypotheses. The bar code is modelled
 * exactly, because its patterns are simple character classes.
 */
module Extraction {
  import opened Wrappers
  import opened Strings

  /** `FindStringSubmatch` of a pattern with one group: the group's text in the leftmost match. */
  type Matcher = string -> Option<string>

  /** `codigoReceitaRegex3`, whose two groups are the parts before and after the hyphen. */
  type PairMatcher = string -> Option<(string, string)>

  /** `DarmData`, lines 71-81. */
  datatype DarmData = DarmData(
    inscricao: string,
    codigoBarras: string,
    codigoReceita: string,
    valorPrincipal: string,
    valorTotal: string,
    dataVencimento: string,
    exercicio: string,
    numeroGuia: string,
    competencia: string)

  /**
   * The pattern lists of lines 18-59, each in the order `extractDarmData`
   * tries them: four for the inscription, the two hyphenated revenue code
   * patterns and the split one, four each for the principal and the total,
   * three for the due date and for the year, five for the guide number and
   * two for the competence period.
   */
  datatype Patterns = Patterns(
    inscricao: seq<Matcher>,
    receita: seq<Matcher>,
    receitaSplit: PairMatcher,
    principal: seq<Matcher>,
    total: seq<Matcher>,
    vencimento: seq<Matcher>,
    exercicio: seq<Matcher>,
    guia: seq<Matcher>,
    competencia: seq<Matcher>)

  // ---------------------------------------------------------------------
  // The if / else-if cascades
  // ---------------------------------------------------------------------

  /** The capture of the first pattern in `ms` that matches `text`. */
  function FirstMatch(ms: seq<Matcher>, text: string): (r: Option<string>)
    ensures r.None? <==> forall i :: 0 <= i < |ms| ==> ms[i](text).None?
    ensures r.Some? ==> exists i :: 0 <= i < |ms| && ms[i](text) == r && forall j :: 0 <= j < i ==> ms[j](text).None?
  {
    if ms == [] then None
    else if ms[0](text).Some? then ms[0](text)
    else
      var r := FirstMatch(ms[1..], text);
      assert forall i :: 1 <= i < |ms| ==> ms[i] == ms[1..][i - 1];
      r
  }

  /** Cascade priority: a matching pattern wins over every later one, whatever they match. */
  lemma {:induction false} FirstMatchPriority(ms: seq<Matcher>, text: string, i: nat)
    requires i < |ms| && ms[i](text).Some?
    requires forall j :: 0 <= j < i ==> ms[j](text).None?
    ensures FirstMatch(ms, text) == ms[i](text)
  {
    if i > 0 {
      assert ms[0](text).None?;
      assert ms[1..][i - 1] == ms[i];
      FirstMatchPriority(ms[1..], text, i - 1);
    }
  }

  /** A field set by `strings.TrimSpace(matches[1])`, or left empty when no pattern matches. */
  function Field(ms: seq<Matcher>, text: string): string {
    match FirstMatch(ms, text)
    case None => ""
    case Some(m) => TrimSpace(m)
  }

  // ---------------------------------------------------------------------
  // The bar code, lines 528-537
  // ---------------------------------------------------------------------

  /** The class `[\d\.\s]` of `codigoBarrasRegex`. */
  predicate InBarcodeClass(c: char) {
    IsDigit(c) || c == '.' || IsRe2Space(c)
  }

  /** Length of the longest prefix of `s` inside the class. */
  function RunLength(s: string): (k: nat)
    ensures k <= |s|
    ensures s != [] && InBarcodeClass(s[0]) ==> k > 0
  {
    if s != [] && InBarcodeClass(s[0]) then 1 + RunLength(s[1..]) else 0
  }

  /** `codigoBarrasRegex.FindAllString(s, -1)`: the maximal runs of class characters, left to right. */
  function Runs(s: string): seq<string>
    decreases |s|
  {
    if s == [] then []
    else if !InBarcodeClass(s[0]) then Runs(s[1..])
    else
      var k := RunLength(s);
      [s[..k]] + Runs(s[k..])
  }

  /** The bar code field: the runs joined, stripped to digits and cut to 48. */
  function Barcode(text: string): (r: string)
    ensures AllDigits(r) && |r| <= 48
  {
    var runs := Runs(text);
    if |runs| > 0 then Take(Digits(Join(runs, "")), 48) else ""
  }

  lemma JoinEmptyCons(a: string, rest: seq<string>)
    ensures Join([a] + rest, "") == a + Join(rest, "")
  {
    if rest != [] {
      assert ([a] + rest)[1..] == rest;
    } else {
      assert [a] + rest == [a];
    }
  }

  /** Every digit of the text lies in some run, so joining the runs keeps all the digits. */
  lemma {:induction false} DigitsOfRuns(s: string)
    ensures Digits(Join(Runs(s), "")) == Digits(s)
    decreases |s|
  {
    if s != [] {
      if !InBarcodeClass(s[0]) {
        DigitsOfRuns(s[1..]);
      } else {
        var k := RunLength(s);
        DigitsOfRuns(s[k..]);
        JoinEmptyCons(s[..k], Runs(s[k..]));
        DigitsAppend(s[..k], Join(Runs(s[k..]), ""));
        DigitsAppend(s[..k], s[k..]);
        assert s[..k] + s[k..] == s;
      }
    }
  }

  /** The bar code is the first 48 ASCII digits of the text (all of them when there are fewer), in order. */
  lemma BarcodeIsDigitPrefix(text: string)
    ensures Barcode(text) == Take(Digits(text), 48)
    ensures AllDigits(Barcode(text)) && |Barcode(text)| <= 48
  {
    DigitsOfRuns(text);
  }

  // ---------------------------------------------------------------------
  // The revenue code, lines 540-560
  // ---------------------------------------------------------------------

  /** `strings.ReplaceAll(code, "-", "")` when the code contains a hyphen. */
  function StripHyphen(code: string): (r: string)
    ensures '-' !in r
  {
    if '-' in code then RemoveChars(code, {'-'}) else code
  }

  /**
   * The revenue code: a hyphenated capture without its hyphen, else the two
   * split groups joined, else empty. A hyphen can only come from the split
   * groups; `RevenueCodeNoHyphen` rules that out for digit captures.
   */
  function RevenueCode(p: Patterns, text: string): (r: string)
    ensures FirstMatch(p.receita, text).Some? ==> '-' !in r
    ensures FirstMatch(p.receita, text).None? && p.receitaSplit(text).None? ==> r == ""
  {
    match FirstMatch(p.receita, text)
    case Some(code) => StripHyphen(code)
    case None =>
      match p.receitaSplit(text)
      case Some(groups) => groups.0 + groups.1
      case None => ""
  }

  /** A code such as "262-3" loses only its hyphen. */
  lemma StripHyphenOfCode(a: string, b: string)
    requires AllDigits(a) && AllDigits(b)
    ensures StripHyphen(a + "-" + b) == a + b
  {
    var s := a + "-" + b;
    assert s == a + ['-'] + b;
    assert s[|a|] == '-';
    assert forall x :: x in a ==> x !in {'-'};
    assert forall x :: x in b ==> x !in {'-'};
    RemoveBetween(a, '-', b, {'-'});
  }

  // ---------------------------------------------------------------------
  // The guide number, lines 616-652
  // ---------------------------------------------------------------------

  /** `strings.TrimLeft(TrimSpace(m), "0")`, with "0" when nothing is left. */
  function NormalizeGuide(m: string): (r: string)
    ensures r != [] && (r[0] == '0' ==> r == "0")
  {
    var t := TrimLeftChar(TrimSpace(m), '0');
    if t == [] then "0" else t
  }

  function GuideField(ms: seq<Matcher>, text: string): string {
    match FirstMatch(ms, text)
    case None => ""
    case Some(m) => NormalizeGuide(m)
  }

  lemma {:induction false} ParseTrimZeros(s: string)
    requires AllDigits(s)
    ensures ParseDigits(TrimLeftChar(s, '0')) == ParseDigits(s)
  {
    if s != [] && s[0] == '0' {
      ParseDigitsLeadingZero(s);
      ParseTrimZeros(s[1..]);
    }
  }

  /** A digit capture has no white space to trim: only its zeros go. */
  lemma NormalizeDigits(m: string)
    requires m != [] && AllDigits(m)
    ensures NormalizeGuide(m) == (if TrimLeftChar(m, '0') == [] then "0" else TrimLeftChar(m, '0'))
  {
    assert IsDigit(m[0]) && IsDigit(m[|m| - 1]);
    assert !IsSpace(m[0]) && !IsSpace(m[|m| - 1]);
    TrimSpaceOfTrimmed(m);
  }

  /** "0" is the canonical numeral of zero. */
  lemma ZeroNumeral()
    ensures Canonical("0") && ParseDigits("0") == 0
  {
    assert "0"[..0] == [];
  }

  /** Dropping the leading zeros of a digit string leaves its value, and a canonical numeral unless nothing is left. */
  lemma StripZerosCanonical(m: string)
    requires AllDigits(m)
    ensures ParseDigits(TrimLeftChar(m, '0')) == ParseDigits(m)
    ensures TrimLeftChar(m, '0') != [] ==> Canonical(TrimLeftChar(m, '0'))
  {
    var t := TrimLeftChar(m, '0');
    ParseTrimZeros(m);
    var k := |m| - |t|;
    assert t == m[k..];
    forall i | 0 <= i < |t|
      ensures IsDigit(t[i])
    {
      assert t[i] == m[k + i];
    }
  }

  /** A captured guide number keeps its value and loses its superfluous zeros. */
  lemma GuideValue(m: string)
    requires m != [] && AllDigits(m)
    ensures Canonical(NormalizeGuide(m))
    ensures ParseDigits(NormalizeGuide(m)) == ParseDigits(m)
  {
    NormalizeDigits(m);
    StripZerosCanonical(m);
    ZeroNumeral();
  }

  // ---------------------------------------------------------------------
  // extractDarmData, lines 509-677
  // ---------------------------------------------------------------------

  /** Every field as the cascades leave it, before the final checks. */
  function Fields(p: Patterns, text: string): DarmData {
    DarmData(
      Field(p.inscricao, text),
      Barcode(text),
      RevenueCode(p, text),
      Field(p.principal, text),
      Field(p.total, text),
      Field(p.vencimento, text),
      Field(p.exercicio, text),
      GuideField(p.guia, text),
      Field(p.competencia, text))
  }

  /**
   * `extractDarmData`: `None` (Go's nil) exactly when the inscription is
   * empty or both amounts are; otherwise the fields, with the principal
   * taken from the total when only the total was found.
   */
  function ExtractDarmData(p: Patterns, text: string): (r: Option<DarmData>)
    ensures var d := Fields(p, text);
      r.None? <==> d.inscricao == "" || (d.valorPrincipal == "" && d.valorTotal == "")
    ensures var d := Fields(p, text);
      r.Some? ==>
        && r.value.valorPrincipal != ""
        && r.value.valorTotal == d.valorTotal
        && r.value.valorPrincipal == (if d.valorPrincipal == "" then d.valorTotal else d.valorPrincipal)
        && r.value.(valorPrincipal := d.valorPrincipal) == d
  {
    var d := Fields(p, text);
    if d.inscricao == "" || (d.valorPrincipal == "" && d.valorTotal == "") then None
    else if d.valorPrincipal == "" && d.valorTotal != "" then Some(d.(valorPrincipal := d.valorTotal))
    else Some(d)
  }

  // ---------------------------------------------------------------------
  // What the patterns guarantee about their captures
  // ---------------------------------------------------------------------

  predicate Numeral(s: string) {
    s != [] && AllDigits(s)
  }

  /** `[\d,\.]+`: the amount patterns capture a non-empty run of digits, commas and dots. */
  predicate AmountText(s: string) {
    s != [] && forall i :: 0 <= i < |s| ==> IsDigit(s[i]) || s[i] == ',' || s[i] == '.'
  }

  /** Every pattern of the list captures a digit run `(\d+)`. */
  ghost predicate CapturesNumerals(ms: seq<Matcher>) {
    forall i, t :: 0 <= i < |ms| && ms[i](t).Some? ==> Numeral(ms[i](t).value)
  }

  ghost predicate CapturesAmounts(ms: seq<Matcher>) {
    forall i, t :: 0 <= i < |ms| && ms[i](t).Some? ==> AmountText(ms[i](t).value)
  }

  /** The groups `(\d{1,4})-(\d{1,2})` of the split revenue pattern. */
  ghost predicate CapturesDigitPairs(m: PairMatcher) {
    forall t :: m(t).Some? ==> AllDigits(m(t).value.0) && AllDigits(m(t).value.1)
  }

  ghost predicate WellFormed(p: Patterns) {
    CapturesNumerals(p.inscricao) && CapturesNumerals(p.guia)
    && CapturesAmounts(p.principal) && CapturesAmounts(p.total)
    && CapturesDigitPairs(p.receitaSplit)
  }

  lemma NumeralField(ms: seq<Matcher>, text: string)
    requires CapturesNumerals(ms)
    ensures Field(ms, text) == "" <==> FirstMatch(ms, text).None?
    ensures FirstMatch(ms, text).Some? ==> Field(ms, text) == FirstMatch(ms, text).value
  {
    if FirstMatch(ms, text).Some? {
      var m := FirstMatch(ms, text).value;
      TrimSpaceOfTrimmed(m);
    }
  }

  lemma AmountField(ms: seq<Matcher>, text: string)
    requires CapturesAmounts(ms)
    ensures Field(ms, text) == "" <==> FirstMatch(ms, text).None?
  {
    if FirstMatch(ms, text).Some? {
      var m := FirstMatch(ms, text).value;
      assert !IsSpace(m[0]) && !IsSpace(m[|m| - 1]);
      TrimSpaceOfTrimmed(m);
    }
  }

  /**
   * With patterns that capture what their regular expressions allow, a
   * slip is rejected exactly when no inscription pattern matches, or when
   * no pattern for the principal and none for the total does.
   */
  lemma ExtractRejects(p: Patterns, text: string)
    requires WellFormed(p)
    ensures ExtractDarmData(p, text).None? <==>
      FirstMatch(p.inscricao, text).None?
      || (FirstMatch(p.principal, text).None? && FirstMatch(p.total, text).None?)
  {
    NumeralField(p.inscricao, text);
    AmountField(p.principal, text);
    AmountField(p.total, text);
  }

  /**
   * An accepted slip has a numeric inscription, a canonical guide number
   * of the captured value (or none), a revenue code without hyphen, and a
   * bar code of at most 48 digits.
   */
  lemma ExtractedShape(p: Patterns, text: string)
    requires WellFormed(p) && ExtractDarmData(p, text).Some?
    ensures var d := ExtractDarmData(p, text).value;
      && Numeral(d.inscricao)
      && (d.numeroGuia == "" || Canonical(d.numeroGuia))
      && (FirstMatch(p.guia, text).Some? ==> ParseDigits(d.numeroGuia) == ParseDigits(FirstMatch(p.guia, text).value))
      && '-' !in d.codigoReceita
      && AllDigits(d.codigoBarras) && |d.codigoBarras| <= 48
  {
    var d := ExtractDarmData(p, text).value;
    var f := Fields(p, text);
    assert d.inscricao == f.inscricao && d.numeroGuia == f.numeroGuia;
    assert d.codigoReceita == f.codigoReceita && d.codigoBarras == f.codigoBarras;
    NumeralField(p.inscricao, text);
    BarcodeIsDigitPrefix(text);
    if FirstMatch(p.guia, text).Some? {
      GuideValue(FirstMatch(p.guia, text).value);
    }
    RevenueCodeNoHyphen(p, text);
  }

  lemma RevenueCodeNoHyphen(p: Patterns, text: string)
    requires CapturesDigitPairs(p.receitaSplit)
    ensures '-' !in RevenueCode(p, text)
  {
    if FirstMatch(p.receita, text).None? && p.receitaSplit(text).Some? {
      var g := p.receitaSplit(text).value;
      assert AllDigits(g.0 + g.1);
    }
  }

  /** The revenue code test: a "262-3" capture becomes "2623". */
  lemma ExampleRevenueCode(p: Patterns, text: string)
    requires FirstMatch(p.receita, text) == Some("262-3")
    ensures RevenueCode(p, text) == "2623"
  {
    assert "262-3" == "262" + "-" + "3";
    StripHyphenOfCode("262", "3");
  }
}
