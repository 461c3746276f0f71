/**
 * `SQLUtils` (utils.go): quoting string literals for SQL, rendering a Go
 * value as an SQL literal, and the "?, ?, ?" placeholder list.
 */
module SqlUtils {
  import opened Wrappers
  import opened Strings

  const Quote: char := '\''

  /** Doubling every quote adds one character per quote and leaves quote-free text alone. */
  lemma {:induction false} DoubleQuotes(s: string)
    ensures |ReplaceChar(s, Quote, [Quote, Quote])| == |s| + Count(s, Quote)
    ensures Quote !in s ==> ReplaceChar(s, Quote, [Quote, Quote]) == s
  {
    if s != [] {
      DoubleQuotes(s[1..]);
    }
    if Quote !in s {
      ReplaceCharAbsent(s, Quote, [Quote, Quote]);
    }
  }

  /**
   * `EscapeString`, lines 318-321: every single quote doubled. That the
   * result reads back as `s` is `UnescapeEscape`.
   */
  function EscapeString(s: string): (r: string)
    ensures |r| == |s| + Count(s, Quote)
    ensures Quote !in s ==> r == s
  {
    DoubleQuotes(s);
    ReplaceChar(s, Quote, [Quote, Quote])
  }

  /** `QuoteString`, lines 324-326. */
  function QuoteString(s: string): (r: string)
    ensures |r| >= 2 && r[0] == Quote && r[|r| - 1] == Quote
  {
    [Quote] + EscapeString(s) + [Quote]
  }

  /**
   * The body of an SQL string literal: a quote only ever appears doubled, so
   * no quote inside it can end the literal.
   */
  predicate QuotesPaired(t: string)
    decreases |t|
  {
    t == []
    || (t[0] != Quote && QuotesPaired(t[1..]))
    || (|t| >= 2 && t[0] == Quote && t[1] == Quote && QuotesPaired(t[2..]))
  }

  /** How a database reads a literal body back: each doubled quote stands for one. */
  function Unescape(t: string): string
    decreases |t|
  {
    if t == [] then []
    else if |t| >= 2 && t[0] == Quote && t[1] == Quote then [Quote] + Unescape(t[2..])
    else [t[0]] + Unescape(t[1..])
  }

  /** The text an SQL string literal denotes, or None when `t` is not one. */
  function ReadLiteral(t: string): Option<string> {
    if |t| >= 2 && t[0] == Quote && t[|t| - 1] == Quote && QuotesPaired(t[1..|t| - 1])
    then Some(Unescape(t[1..|t| - 1]))
    else None
  }

  /** Escaping leaves no lone quote behind... */
  lemma {:induction false} EscapedQuotesPaired(s: string)
    ensures QuotesPaired(EscapeString(s))
  {
    if s != [] {
      EscapedQuotesPaired(s[1..]);
      var t := EscapeString(s);
      var rest := EscapeString(s[1..]);
      if s[0] == Quote {
        assert t == [Quote, Quote] + rest && t[2..] == rest;
      } else {
        assert t == [s[0]] + rest && t[1..] == rest;
      }
    }
  }

  /** ...and reading it back gives the original text. */
  lemma {:induction false} UnescapeEscape(s: string)
    ensures Unescape(EscapeString(s)) == s
  {
    if s != [] {
      UnescapeEscape(s[1..]);
      var t := EscapeString(s);
      var rest := EscapeString(s[1..]);
      if s[0] == Quote {
        assert t == [Quote, Quote] + rest && t[2..] == rest;
      } else {
        assert t == [s[0]] + rest && t[1..] == rest;
        if |t| >= 2 {
          assert t[0] != Quote;
        }
      }
      assert s == [s[0]] + s[1..];
    }
  }

  /** A quoted string is a well-formed SQL literal that denotes exactly the original text. */
  lemma QuoteRoundTrip(s: string)
    ensures ReadLiteral(QuoteString(s)) == Some(s)
    ensures |QuoteString(s)| == |s| + Count(s, Quote) + 2
  {
    var t := QuoteString(s);
    assert t[1..|t| - 1] == EscapeString(s);
    EscapedQuotesPaired(s);
    UnescapeEscape(s);
  }

  /** The escaping test case. */
  lemma ExampleOConnor()
    ensures EscapeString("O'Connor") == "O''Connor"
    ensures QuoteString("O'Connor") == "'O''Connor'"
  {
    var o, connor, q, qq := "O", "Connor", [Quote], [Quote, Quote];
    assert "O'Connor" == o + q + connor;
    ReplaceCharAppend(o + q, connor, Quote, qq);
    ReplaceCharAppend(o, q, Quote, qq);
    ReplaceCharAbsent(o, Quote, qq);
    ReplaceCharAbsent(connor, Quote, qq);
    assert ReplaceChar(q, Quote, qq) == qq;
    assert EscapeString(o + q + connor) == o + qq + connor;
    assert o + qq + connor == "O''Connor";
    assert QuoteString("O'Connor") == q + "O''Connor" + q;
    QuotedOConnor();
  }

  lemma QuotedOConnor()
    ensures [Quote] + "O''Connor" + [Quote] == "'O''Connor'"
  {
  }

  // ---------------------------------------------------------------------
  // FormatSQLValue
  // ---------------------------------------------------------------------

  /**
   * The dynamic types `FormatSQLValue` switches on. `Other` stands for a
   * value of any other type, carried with the text `fmt.Sprintf("%v")`
   * renders for it.
   */
  datatype SqlValue =
    | Text(s: string)
    | Integer(i: int)
    | Boolean(b: bool)
    | Nil
    | Other(rendered: string)

  /** `FormatSQLValue`, lines 329-350, without the floating-point case. */
  function FormatSQLValue(v: SqlValue): (r: string)
    ensures r == "NULL" <==> v.Nil? || v == Text("")
    ensures v.Boolean? ==> r == (if v.b then "1" else "0")
    ensures (v.Text? && v.s != "") || v.Other? ==> |r| >= 2 && r[0] == Quote && r[|r| - 1] == Quote
  {
    match v
    case Text(s) => if s == "" then "NULL" else QuoteString(s)
    case Integer(i) => IntToString(i)
    case Boolean(b) => if b then "1" else "0"
    case Nil => "NULL"
    case Other(text) => QuoteString(text)
  }

  /**
   * Every rendering is read back as what it stands for: a non-empty text as
   * that text, a non-negative integer as its value; an empty text becomes
   * NULL, like nil.
   */
  lemma FormatSQLValueReadsBack(v: SqlValue)
    ensures v.Text? && v.s != "" ==> ReadLiteral(FormatSQLValue(v)) == Some(v.s)
    ensures v.Other? ==> ReadLiteral(FormatSQLValue(v)) == Some(v.rendered)
    ensures v.Integer? && v.i >= 0 ==> ParseDigits(FormatSQLValue(v)) == v.i
    ensures v.Integer? && v.i >= 0 ==> AllDigits(FormatSQLValue(v))
  {
    match v
    case Text(s) => QuoteRoundTrip(s);
    case Other(text) => QuoteRoundTrip(text);
    case Integer(i) =>
      if i >= 0 {
        ParseNatToString(i);
      }
    case _ =>
  }

  // ---------------------------------------------------------------------
  // GeneratePlaceholders
  // ---------------------------------------------------------------------

  /** `count` placeholders separated by ", ". */
  function Placeholders(count: nat): string {
    Join(seq(count, _ => "?"), ", ")
  }

  /** `GeneratePlaceholders`, lines 353-359: fills a slice with "?" and joins it. */
  method GeneratePlaceholders(count: int) returns (r: string)
    requires count >= 0
    ensures r == Placeholders(count)
  {
    var placeholders := new string[count];
    var i := 0;
    while i < count
      invariant 0 <= i <= count
      invariant forall j :: 0 <= j < i ==> placeholders[j] == "?"
    {
      placeholders[i] := "?";
      i := i + 1;
    }
    assert placeholders[..] == seq(count, _ => "?");
    r := Join(placeholders[..], ", ");
  }

  /** The placeholder list holds one "?" per column and splits back into them. */
  /** One more column puts "?, " in front of the list. */
  lemma PlaceholdersStep(count: nat)
    requires count > 1
    ensures Placeholders(count) == "?, " + Placeholders(count - 1)
  {
    var xs := seq(count, _ => "?");
    assert xs[0] == "?";
    assert xs[1..] == seq(count - 1, _ => "?");
  }

  /** The placeholder list holds one "?" per column and splits back into them. */
  lemma {:induction false} PlaceholdersShape(count: nat)
    ensures |Placeholders(count)| == if count == 0 then 0 else 3 * count - 2
    ensures Count(Placeholders(count), '?') == count
    ensures count > 0 ==> Split(Placeholders(count), ", ") == seq(count, _ => "?")
  {
    if count > 0 {
      SplitJoin(seq(count, _ => "?"), ", ");
    }
    if count == 1 {
      assert Placeholders(1) == "?";
      assert Count("?", '?') == 1 + Count([], '?');
    }
    if count > 1 {
      PlaceholdersShape(count - 1);
      PlaceholdersStep(count);
      CountAppend("?, ", Placeholders(count - 1), '?');
      assert Count("?, ", '?') == 1 by {
        assert "?, "[1..] == ", " && ", "[1..] == " " && " "[1..] == [];
      }
    }
  }

  /** The test cases: three columns and none. */
  lemma ExamplePlaceholders()
    ensures Placeholders(3) == "?, ?, ?"
    ensures Placeholders(0) == ""
  {
    var xs := seq(3, _ => "?");
    assert xs == ["?", "?", "?"];
    assert xs[1..] == ["?", "?"] && xs[1..][1..] == ["?"];
    assert Join(["?"], ", ") == "?";
    assert Join(["?", "?"], ", ") == "?" + ", " + "?";
    assert Join(xs, ", ") == "?" + ", " + ("?" + ", " + "?");
  }
}
