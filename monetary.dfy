/**
 * `parseMonetaryValue` (darm_processor.go): Brazilian currency text to a
 * decimal string with exactly two fraction digits, "0.00" when there is no
 * number. The float64 parse and `%.2f` are modelled as exact integer cents
 * on the inputs where they are exact: a decimal numeral with at most two
 * fraction digits and fewer than 15 significant digits.
 */
module Monetary {
  import opened Strings

  /** The characters the class `[R$\s]` matches. */
  const CleanSet: set<char> := {'R', '$', ' ', '\t', '\n', '\U{C}', '\r'}

  /** Removing `[R$\s]`, then resolving which separator is the decimal point. */
  function ResolveSeparators(value: string): (r: string)
    ensures ',' !in r
    ensures forall c :: c in r ==> c !in CleanSet
  {
    DecimalComma(RemoveChars(value, CleanSet))
  }

  /** With a `,` present, `.` groups thousands and `,` is the decimal point. */
  function DecimalComma(clean: string): (r: string)
    ensures ',' !in r
    ensures forall c :: c in r ==> c in clean || c == '.'
  {
    if ',' in clean then
      if '.' in clean then ReplaceChar(ReplaceChar(clean, '.', ""), ',', ".")
      else ReplaceChar(clean, ',', ".")
    else clean
  }

  predicate DigitOrDot(c: char) { IsDigit(c) || c == '.' }

  predicate OnlyDigitsAndDots(s: string) {
    forall i :: 0 <= i < |s| ==> DigitOrDot(s[i])
  }

  /** Over digits and dots, `strconv.ParseFloat` accepts exactly: at most one dot and at least one digit. */
  predicate IsDecimal(s: string) {
    OnlyDigitsAndDots(s) && Count(s, '.') <= 1 && Digits(s) != []
  }

  /** Index of the first `.`, or `|s|` when there is none. */
  function DotIndex(s: string): (k: nat)
    ensures k <= |s|
    ensures k < |s| ==> s[k] == '.'
    ensures forall i :: 0 <= i < k ==> s[i] != '.'
  {
    if s == [] then 0 else if s[0] == '.' then 0 else 1 + DotIndex(s[1..])
  }

  function IntPart(s: string): string {
    s[..DotIndex(s)]
  }

  function FracPart(s: string): string {
    if DotIndex(s) < |s| then s[DotIndex(s) + 1..] else []
  }

  lemma {:induction false} CountNoDot(s: string)
    requires forall i :: 0 <= i < |s| ==> s[i] != '.'
    ensures Count(s, '.') == 0
  {
    if s != [] {
      CountNoDot(s[1..]);
    }
  }

  lemma {:induction false} CountZero(t: string, c: char)
    requires Count(t, c) == 0
    ensures forall i :: 0 <= i < |t| ==> t[i] != c
  {
    if t != [] {
      CountZero(t[1..], c);
      assert forall i :: 1 <= i < |t| ==> t[i] == t[1..][i - 1];
    }
  }

  /** In a decimal numeral both sides of the point are digits. */
  lemma DecimalParts(s: string)
    requires IsDecimal(s)
    ensures AllDigits(IntPart(s)) && AllDigits(FracPart(s))
  {
    var k := DotIndex(s);
    if k < |s| {
      assert s == s[..k] + [s[k]] + s[k + 1..];
      CountAppend(s[..k] + [s[k]], s[k + 1..], '.');
      CountAppend(s[..k], [s[k]], '.');
      assert Count([s[k]], '.') == 1;
      CountZero(s[k + 1..], '.');
      forall i | 0 <= i < |s| - k - 1 ensures IsDigit(FracPart(s)[i]) {
        assert FracPart(s)[i] == s[k + 1 + i];
        assert DigitOrDot(s[k + 1 + i]);
      }
    }
  }

  /** The value in cents of a decimal numeral with at most two fraction digits. */
  function Cents(s: string): nat
    requires IsDecimal(s) && |FracPart(s)| <= 2
  {
    DecimalParts(s);
    var f := FracPart(s);
    100 * ParseDigits(IntPart(s)) + (if |f| == 0 then 0 else if |f| == 1 then 10 * DigitValue(f[0]) else ParseDigits(f))
  }

  /** Below this many cents a decimal survives the float64 round trip of `ParseFloat` and `%.2f`. */
  const ExactLimit: nat := 1_000_000_000_000_000

  /** The inputs on which the model of `parseMonetaryValue` is exact. */
  predicate InDomain(value: string) {
    value == [] ||
    var c := ResolveSeparators(value);
    OnlyDigitsAndDots(c) && (IsDecimal(c) ==> |FracPart(c)| <= 2 && Cents(c) < ExactLimit)
  }

  /** `fmt.Sprintf("%.2f", cents / 100)`. */
  function FormatCents(n: nat): string {
    NatToString(n / 100) + "." + FixedWidth(n % 100, 2)
  }

  /** `parseMonetaryValue`, lines 765-791. */
  function ParseMonetaryValue(value: string): (r: string)
    requires InDomain(value)
    ensures value == [] ==> r == "0.00"
    ensures value != [] && !IsDecimal(ResolveSeparators(value)) ==> r == "0.00"
    ensures IsDecimal(r) && |FracPart(r)| == 2 && Canonical(IntPart(r))
    ensures value != [] && IsDecimal(ResolveSeparators(value)) ==> Cents(r) == Cents(ResolveSeparators(value))
  {
    if value == [] then
      FormatCentsShape(0);
      "0.00"
    else
      var c := ResolveSeparators(value);
      FormatCentsShape(0);
      if IsDecimal(c) then
        FormatCentsShape(Cents(c));
        FormatCents(Cents(c))
      else "0.00"
  }

  lemma {:induction false} DotIndexAfterDigits(a: string, rest: string)
    requires AllDigits(a)
    ensures DotIndex(a + "." + rest) == |a|
  {
    if a != [] {
      assert (a + "." + rest)[1..] == a[1..] + "." + rest;
      DotIndexAfterDigits(a[1..], rest);
    }
  }

  lemma {:induction false} DigitsNonEmpty(s: string)
    requires AllDigits(s) && s != []
    ensures Digits(s) != []
  {
    DigitsOfDigits(s);
  }

  /** Digits, a point and digits form a decimal numeral split at that point. */
  lemma PointNumeral(a: string, b: string)
    requires AllDigits(a) && a != [] && AllDigits(b)
    ensures IsDecimal(a + "." + b) && IntPart(a + "." + b) == a && FracPart(a + "." + b) == b
  {
    var s := a + "." + b;
    DotIndexAfterDigits(a, b);
    assert s[..|a|] == a && s[|a| + 1..] == b;
    CountNoDot(a);
    CountNoDot(b);
    CountAppend(a + ".", b, '.');
    CountAppend(a, ".", '.');
    DigitsNonEmpty(a);
    DigitsAppend(a, "." + b);
    assert OnlyDigitsAndDots(s) by {
      forall i | 0 <= i < |s| ensures DigitOrDot(s[i]) {
        if i < |a| { assert s[i] == a[i]; }
        else if i > |a| { assert s[i] == b[i - |a| - 1]; }
      }
    }
  }

  /** The text `%.2f` prints is a decimal numeral that holds exactly the cents it was given. */
  lemma FormatCentsShape(n: nat)
    ensures IsDecimal(FormatCents(n))
    ensures IntPart(FormatCents(n)) == NatToString(n / 100)
    ensures FracPart(FormatCents(n)) == FixedWidth(n % 100, 2)
    ensures Cents(FormatCents(n)) == n
  {
    PointNumeral(NatToString(n / 100), FixedWidth(n % 100, 2));
    ParseNatToString(n / 100);
    ParseFixedWidth(n % 100, 2);
  }

  /** Text made only of digits and dots passes the cleaning unchanged. */
  lemma ResolveDigitsAndDots(r: string)
    requires OnlyDigitsAndDots(r)
    ensures ResolveSeparators(r) == r
  {
    forall x | x in r ensures x !in CleanSet {
      var i :| 0 <= i < |r| && r[i] == x;
      assert DigitOrDot(r[i]);
    }
    RemoveCharsNone(r, CleanSet);
    forall i | 0 <= i < |r| ensures r[i] != ',' {
      assert DigitOrDot(r[i]);
    }
  }

  lemma DivModCents(a: nat, f: nat)
    requires f < 100
    ensures (100 * a + f) / 100 == a && (100 * a + f) % 100 == f
  {
  }

  /** A numeral with a canonical integer part and two fraction digits is what `%.2f` prints for its cents. */
  lemma FormatOfCents(r: string)
    requires IsDecimal(r) && |FracPart(r)| == 2 && Canonical(IntPart(r))
    ensures r == FormatCents(Cents(r))
  {
    DecimalParts(r);
    FormatOfParts(IntPart(r), FracPart(r), Cents(r));
    SplitAtDot(r);
  }

  lemma FormatOfParts(a: string, f: string, n: nat)
    requires Canonical(a) && |f| == 2 && AllDigits(f)
    requires n == 100 * ParseDigits(a) + ParseDigits(f)
    ensures FormatCents(n) == a + "." + f
  {
    ParseDigitsBelow(f);
    assert Pow10(|f|) == 100;
    FormatCentsOf(n, ParseDigits(a), ParseDigits(f));
    NatToStringParse(a);
    FixedWidthParse(f);
  }

  lemma FormatCentsOf(n: nat, q: nat, m: nat)
    requires n == 100 * q + m && m < 100
    ensures FormatCents(n) == NatToString(q) + "." + FixedWidth(m, 2)
  {
    DivModCents(q, m);
  }

  /** A numeral with a point is its integer part, the point and its fraction part. */
  lemma SplitAtDot(r: string)
    requires DotIndex(r) < |r|
    ensures r == IntPart(r) + "." + FracPart(r)
  {
    SplitAround(r, DotIndex(r), '.');
  }

  lemma OutputCentsBound(value: string)
    requires InDomain(value)
    ensures Cents(ParseMonetaryValue(value)) < ExactLimit
  {
    var r := ParseMonetaryValue(value);
    if value != [] && IsDecimal(ResolveSeparators(value)) {
      assert Cents(r) == Cents(ResolveSeparators(value));
    } else {
      FormatCentsShape(0);
      assert r == FormatCents(0);
    }
  }

  /** Normalising twice is normalising once. */
  lemma {:induction false} Idempotent(value: string)
    requires InDomain(value)
    ensures InDomain(ParseMonetaryValue(value))
    ensures ParseMonetaryValue(ParseMonetaryValue(value)) == ParseMonetaryValue(value)
  {
    var r := ParseMonetaryValue(value);
    ResolveDigitsAndDots(r);
    OutputCentsBound(value);
    FormatOfCents(r);
    assert r != [];
    assert ParseMonetaryValue(r) == FormatCents(Cents(r));
  }

  /** A numeral in point notation with two fraction digits is its own normal form. */
  lemma {:induction false} PointAmountFixed(a: string, f: string)
    requires Canonical(a) && |a| <= 13 && |f| == 2 && AllDigits(f)
    ensures InDomain(a + "." + f) && ParseMonetaryValue(a + "." + f) == a + "." + f
  {
    var c := a + "." + f;
    PointNumeral(a, f);
    DecimalParts(c);
    ParseDigitsBelow(a);
    ParseDigitsBelow(f);
    assert Pow10(13) == 10_000_000_000_000 && Pow10(2) == 100;
    assert Cents(c) < ExactLimit;
    ResolveDigitsAndDots(c);
    FormatOfCents(c);
  }

  /**
   * Brazilian notation: an optional currency marker, the integer part in
   * groups separated by `.` and a `,` before two cent digits, reads as the
   * same digits in point notation (the test amounts "R$ 1.234,56",
   * "1.234,56", "1234,56", "R$ 0,00" and "R$ 1.000.000,00" are instances).
   */
  lemma BrazilianAmount(w: string, groups: seq<string>, f: string)
    requires forall x :: x in w ==> x in CleanSet
    requires |groups| >= 1 && forall i :: 0 <= i < |groups| ==> AllDigits(groups[i])
    requires Canonical(Join(groups, "")) && |Join(groups, "")| <= 13
    requires |f| == 2 && AllDigits(f)
    ensures InDomain(w + Join(groups, ".") + "," + f)
    ensures ParseMonetaryValue(w + Join(groups, ".") + "," + f) == Join(groups, "") + "." + f
  {
    var value := w + Join(groups, ".") + "," + f;
    var c := Join(groups, "") + "." + f;
    ResolveBrazilian(w, groups, f);
    PointAmountFixed(Join(groups, ""), f);
    ResolveDigitsAndDots(c);
    SameResolution(value, c);
  }

  /** Only what survives cleaning matters. */
  lemma SameResolution(v: string, u: string)
    requires v != [] && u != [] && ResolveSeparators(v) == ResolveSeparators(u) && InDomain(u)
    ensures InDomain(v) && ParseMonetaryValue(v) == ParseMonetaryValue(u)
  {
  }

  /** Cleaning and separator resolution turn Brazilian notation into point notation. */
  lemma ResolveBrazilian(w: string, groups: seq<string>, f: string)
    requires forall x :: x in w ==> x in CleanSet
    requires |groups| >= 1 && forall i :: 0 <= i < |groups| ==> AllDigits(groups[i])
    requires AllDigits(f)
    ensures ResolveSeparators(w + Join(groups, ".") + "," + f) == Join(groups, "") + "." + f
  {
    CleanBrazilian(w, groups, f);
    BodyIsClean(groups, f);
    CommaBody(groups, f);
  }

  lemma CleanBrazilian(w: string, groups: seq<string>, f: string)
    requires forall x :: x in w ==> x in CleanSet
    requires forall i :: 0 <= i < |groups| ==> AllDigits(groups[i])
    requires AllDigits(f)
    ensures RemoveChars(w + Join(groups, ".") + "," + f, CleanSet) == Join(groups, ".") + "," + f
  {
    var body := Join(groups, ".") + "," + f;
    assert w + Join(groups, ".") + "," + f == w + body;
    BodyIsClean(groups, f);
    CleanedBody(w, body);
  }

  lemma CommaBody(groups: seq<string>, f: string)
    requires |groups| >= 1 && forall i :: 0 <= i < |groups| ==> AllDigits(groups[i])
    requires AllDigits(f)
    requires ',' in Join(groups, ".") + "," + f
    ensures DecimalComma(Join(groups, ".") + "," + f) == Join(groups, "") + "." + f
  {
    var body := Join(groups, ".") + "," + f;
    var a := Join(groups, "");
    UndotBody(groups, f);
    JoinAllDigits(groups);
    CommaToPoint(a, f);
    if '.' !in body {
      ReplaceCharAbsent(body, '.', "");
    }
  }

  lemma CleanedBody(w: string, body: string)
    requires forall x :: x in w ==> x in CleanSet
    requires forall x :: x in body ==> x !in CleanSet
    ensures RemoveChars(w + body, CleanSet) == body
  {
    RemoveCharsAll(w, CleanSet);
    RemoveCharsAppend(w, body, CleanSet);
    RemoveCharsNone(body, CleanSet);
  }

  lemma BodyIsClean(groups: seq<string>, f: string)
    requires forall i :: 0 <= i < |groups| ==> AllDigits(groups[i])
    requires AllDigits(f)
    ensures forall x :: x in Join(groups, ".") + "," + f ==> x !in CleanSet
    ensures ',' in Join(groups, ".") + "," + f
  {
    var g := Join(groups, ".");
    var body := g + "," + f;
    JoinOfDigitsAndDots(groups);
    forall i | 0 <= i < |body| ensures Mark(body[i]) {
      if i < |g| {
        assert body[i] == g[i] && DigitOrDot(g[i]);
      } else if i > |g| {
        assert body[i] == f[i - |g| - 1];
      }
    }
    MarksAreClean(body);
    assert body[|g|] == ',';
  }

  predicate Mark(c: char) { IsDigit(c) || c == '.' || c == ',' }

  lemma MarksAreClean(s: string)
    requires forall i :: 0 <= i < |s| ==> Mark(s[i])
    ensures forall x :: x in s ==> x !in CleanSet
  {
    forall x | x in s ensures x !in CleanSet {
      var i :| 0 <= i < |s| && s[i] == x;
      assert Mark(s[i]);
    }
  }

  lemma UndotBody(groups: seq<string>, f: string)
    requires forall i :: 0 <= i < |groups| ==> AllDigits(groups[i])
    requires AllDigits(f)
    ensures ReplaceChar(Join(groups, ".") + "," + f, '.', "") == Join(groups, "") + "," + f
  {
    UndotGroups(groups);
    UndotTail(Join(groups, "."), f);
    assert Join(groups, ".") + "," + f == Join(groups, ".") + ("," + f);
  }

  lemma UndotGroups(groups: seq<string>)
    requires forall i :: 0 <= i < |groups| ==> AllDigits(groups[i])
    ensures ReplaceChar(Join(groups, "."), '.', "") == Join(groups, "")
  {
    forall i | 0 <= i < |groups| ensures '.' !in groups[i] {
      NoDigitIsMark(groups[i]);
    }
    ReplaceCharJoin(groups, '.', "");
  }

  lemma UndotTail(g: string, f: string)
    requires AllDigits(f)
    ensures ReplaceChar(g + ("," + f), '.', "") == ReplaceChar(g, '.', "") + "," + f
  {
    NoDigitIsMark(f);
    ReplaceCharAppend(g, "," + f, '.', "");
    ReplaceCharAbsent("," + f, '.', "");
  }

  lemma CommaToPoint(a: string, f: string)
    requires AllDigits(a) && AllDigits(f)
    ensures ReplaceChar(a + "," + f, ',', ".") == a + "." + f
  {
    NoDigitIsMark(a);
    NoDigitIsMark(f);
    ReplaceCharAppend(a + ",", f, ',', ".");
    ReplaceCharAppend(a, ",", ',', ".");
    ReplaceCharAbsent(a, ',', ".");
    ReplaceCharAbsent(f, ',', ".");
  }

  lemma NoDigitIsMark(s: string)
    requires AllDigits(s)
    ensures '.' !in s && ',' !in s
  {
    forall i | 0 <= i < |s| ensures s[i] != '.' && s[i] != ',' {
      assert IsDigit(s[i]);
    }
  }

  lemma {:induction false} JoinOfDigitsAndDots(groups: seq<string>)
    requires forall i :: 0 <= i < |groups| ==> AllDigits(groups[i])
    ensures OnlyDigitsAndDots(Join(groups, "."))
  {
    if |groups| > 1 {
      JoinOfDigitsAndDots(groups[1..]);
      var t := Join(groups[1..], ".");
      var s := groups[0] + "." + t;
      forall i | 0 <= i < |s| ensures DigitOrDot(s[i]) {
        if i < |groups[0]| { assert s[i] == groups[0][i]; }
        else if i > |groups[0]| { assert s[i] == t[i - |groups[0]| - 1]; }
      }
    } else if |groups| == 1 {
      assert forall i :: 0 <= i < |groups[0]| ==> IsDigit(groups[0][i]);
    }
  }

  /** "R$ 1.234,56" and "1.234,56" become "1234.56". */
  lemma ExampleThousands()
    ensures InDomain("R$ 1.234,56") && ParseMonetaryValue("R$ 1.234,56") == "1234.56"
    ensures InDomain("1.234,56") && ParseMonetaryValue("1.234,56") == "1234.56"
  {
    var groups := ["1", "234"];
    assert Join(groups, ".") == "1.234";
    assert Join(groups, "") == "1234";
    assert "R$ " + "1.234" + "," + "56" == "R$ 1.234,56";
    assert "" + "1.234" + "," + "56" == "1.234,56";
    assert "1234" + "." + "56" == "1234.56";
    BrazilianAmount("R$ ", groups, "56");
    BrazilianAmount("", groups, "56");
  }

  /** "1234,56" and "1234.56" become "1234.56". */
  lemma ExampleSeparators()
    ensures InDomain("1234,56") && ParseMonetaryValue("1234,56") == "1234.56"
    ensures InDomain("1234.56") && ParseMonetaryValue("1234.56") == "1234.56"
  {
    var groups := ["1234"];
    assert Join(groups, ".") == "1234" && Join(groups, "") == "1234";
    assert "" + "1234" + "," + "56" == "1234,56";
    assert "1234" + "." + "56" == "1234.56";
    BrazilianAmount("", groups, "56");
    PointAmountFixed("1234", "56");
  }

  /** "R$ 0,00" becomes "0.00". */
  lemma ExampleZero()
    ensures InDomain("R$ 0,00") && ParseMonetaryValue("R$ 0,00") == "0.00"
  {
    var groups := ["0"];
    assert Join(groups, ".") == "0" && Join(groups, "") == "0";
    assert "R$ " + "0" + "," + "00" == "R$ 0,00";
    assert "0" + "." + "00" == "0.00";
    BrazilianAmount("R$ ", groups, "00");
  }

  /** "R$ 1.000.000,00" becomes "1000000.00". */
  lemma ExampleMillion()
    ensures InDomain("R$ 1.000.000,00") && ParseMonetaryValue("R$ 1.000.000,00") == "1000000.00"
  {
    var groups := ["1", "000", "000"];
    assert Join(groups, ".") == "1.000.000";
    assert Join(groups, "") == "1000000";
    assert "R$ " + "1.000.000" + "," + "00" == "R$ 1.000.000,00";
    assert "1000000" + "." + "00" == "1000000.00";
    BrazilianAmount("R$ ", groups, "00");
  }

  lemma ExampleEmpty()
    ensures ParseMonetaryValue("") == "0.00"
  {
  }
}
