/**
 * `generateSQLInsert` and its helpers (darm_processor.go): one INSERT INTO
 * FarrDarmsPagos statement per slip. The statement is modelled as its 33
 * value slots, in column order, and the fixed text that lays them out.
 */
module Insert {
  import opened Strings
  import opened Monetary
  import opened Dates
  import opened Extraction

  const SlotCount: nat := 33

  /** The text before the value list, shared by the single statements and the batch file. */
  const Header: string :=
    "use silfae;\n\nINSERT INTO FarrDarmsPagos (\n"
    + "    id, AA_EXERCICIO, CD_BANCO, NR_BDA, NR_COMPLEMENTO, NR_LOTE_NSA, TP_LOTE_D,\n"
    + "    SQ_DOC, CD_RECEITA, CD_USU_ALT, CD_USU_INCL, DT_ALT, DT_INCL, DT_VENCTO,\n"
    + "    DT_PAGTO, NR_INSCRICAO, NR_GUIA, NR_COMPETENCIA, NR_CODIGO_BARRAS,\n"
    + "    NR_LOTE_IPTU, ST_DOC_D, TP_IMPOSTO, VL_PAGO, VL_RECEITA, VL_PRINCIPAL,\n"
    + "    VL_MORA, VL_MULTA, VL_MULTAF_TCDL, VL_MULTAP_TSD, VL_INSU_TIP, VL_JUROS,\n"
    + "    processado, criticaProcessamento\n)"

  const Indent4: string := "    "
  const Indent8: string := "        "

  /** The first slot of each line of a value list: the lines hold 7, 5, 3, 4, 6, 6 and 2 values. */
  predicate StartsLine(i: nat) {
    i == 0 || i == 7 || i == 12 || i == 15 || i == 19 || i == 25 || i == 31
  }

  /**
   * The text between two commas of a value list: the slot, preceded by a
   * new indented line or a space, and followed by a line break when it is
   * the last.
   */
  function Piece(slots: seq<string>, i: nat, indent: string): string
    requires i < |slots|
  {
    Lead(i, indent) + slots[i] + Tail(|slots|, i)
  }

  function Lead(i: nat, indent: string): string {
    if StartsLine(i) then "\n" + indent else " "
  }

  function Tail(n: nat, i: nat): string {
    if i == n - 1 then "\n" else ""
  }

  function Pieces(slots: seq<string>, indent: string): (ps: seq<string>)
    ensures |ps| == |slots|
  {
    seq(|slots|, i requires 0 <= i < |slots| => Piece(slots, i, indent))
  }

  /** A value list as the format strings of lines 726-757 and 204-212 lay it out. */
  function Layout(slots: seq<string>, indent: string): string {
    Join(Pieces(slots, indent), ",")
  }

  /** The statement `generateSQLInsert` returns, given its 33 values. */
  function InsertStatement(slots: seq<string>): (r: string)
    ensures |r| > |Header| + 2 && r[..|Header|] == Header && r[|r| - 2..] == ");"
  {
    Header + " VALUES (" + Layout(slots, Indent4) + ");"
  }

  // ---------------------------------------------------------------------
  // Small helpers, lines 760-799
  // ---------------------------------------------------------------------

  /** `getDefaultValue`, lines 794-799. */
  function GetDefaultValue(value: string, default: string): (r: string)
    ensures r != "" <==> value != "" || default != ""
    ensures value == "" ==> r == default
    ensures value != "" ==> r == value
  {
    if value == "" then default else value
  }

  /** `removeLeadingZeros` as written, lines 760-762: `strings.TrimLeft(value, "0")`. */
  function RemoveLeadingZerosAsWritten(value: string): (r: string)
    ensures r == [] || r[0] != '0'
    ensures |r| <= |value| && r == value[|value| - |r|..]
    ensures forall i :: 0 <= i < |value| - |r| ==> value[i] == '0'
  {
    TrimLeftChar(value, '0')
  }

  /** As written, a string made only of zeros comes back empty. */
  lemma RemoveLeadingZerosLosesZero(s: string)
    requires s != [] && forall i :: 0 <= i < |s| ==> s[i] == '0'
    ensures RemoveLeadingZerosAsWritten(s) == ""
  {
  }

  /** The cases of the test table that the code as written fails: "0" and "000" should give "0". */
  lemma ExampleAsWrittenZeros(one: string, three: string)
    requires one == "0" && three == "000"
    ensures RemoveLeadingZerosAsWritten(one) == "" && RemoveLeadingZerosAsWritten(three) == ""
  {
    RemoveLeadingZerosLosesZero(one);
    RemoveLeadingZerosLosesZero(three);
  }

  /**
   * `removeLeadingZeros` as its tests expect it (test_darm_processor.go,
   * lines 202-220): the leading zeros go, but a number of zeros keeps one.
   */
  function RemoveLeadingZeros(value: string): (r: string)
    ensures value == "" <==> r == ""
    ensures r != "" && r[0] == '0' ==> r == "0"
    ensures AllDigits(value) ==> AllDigits(r) && ParseDigits(r) == ParseDigits(value)
  {
    if value == "" then ""
    else
      var t := TrimLeftChar(value, '0');
      ZerosTrimmed(value);
      if t == [] then "0" else t
  }

  lemma ZerosTrimmed(value: string)
    requires value != ""
    ensures var t := TrimLeftChar(value, '0'); var r := if t == [] then "0" else t;
      AllDigits(value) ==> AllDigits(r) && ParseDigits(r) == ParseDigits(value)
  {
    var t := TrimLeftChar(value, '0');
    assert t == value[|value| - |t|..];
    if AllDigits(value) {
      ParseTrimZeros(value);
      assert AllDigits(t);
      if t == [] {
        var z := "0";
        assert z[..0] == [];
        assert ParseDigits(z) == 0;
      }
    }
  }

  /** A digit string comes back canonical, with its value. */
  lemma RemoveLeadingZerosCanonical(value: string)
    requires value != "" && AllDigits(value)
    ensures Canonical(RemoveLeadingZeros(value))
    ensures ParseDigits(RemoveLeadingZeros(value)) == ParseDigits(value)
  {
    var r := RemoveLeadingZeros(value);
    assert r != "" && AllDigits(r);
  }

  /** The test table of lines 202-220: "00123", "123", "000", "0" and "". */
  lemma ExampleRemoveLeadingZeros()
    ensures RemoveLeadingZeros("00123") == "123" && RemoveLeadingZeros("123") == "123"
    ensures RemoveLeadingZeros("000") == "0" && RemoveLeadingZeros("0") == "0" && RemoveLeadingZeros("") == ""
  {
    LeadingZerosCase();
    ZerosCase();
  }

  lemma LeadingZerosCase()
    ensures RemoveLeadingZeros("00123") == "123" && RemoveLeadingZeros("123") == "123"
  {
    ZerosThenDigit("00123", 2);
    ZerosThenDigit("123", 0);
  }

  lemma ZerosCase()
    ensures RemoveLeadingZeros("000") == "0" && RemoveLeadingZeros("0") == "0"
  {
    OnlyZeros("000");
    OnlyZeros("0");
  }

  /** Zeros followed by another character: the corrected function drops just the zeros. */
  lemma ZerosThenDigit(s: string, k: nat)
    requires k < |s| && s[k] != '0' && forall i :: 0 <= i < k ==> s[i] == '0'
    ensures RemoveLeadingZeros(s) == s[k..]
  {
    var t := TrimLeftChar(s, '0');
    var m := |s| - |t|;
    assert m <= k;
    assert t[0] == s[m];
    assert m == k;
  }

  /** A string of zeros: the corrected function keeps one. */
  lemma OnlyZeros(s: string)
    requires s != [] && forall i :: 0 <= i < |s| ==> s[i] == '0'
    ensures RemoveLeadingZeros(s) == "0"
  {
    RemoveLeadingZerosLosesZero(s);
  }

  // ---------------------------------------------------------------------
  // The computed slots, lines 680-722
  // ---------------------------------------------------------------------

  /** DT_VENCTO: the date split on "/" and reordered, with no calendar check; NULL otherwise. */
  function DueDateSlot(venc: string): string {
    if venc == "" then "NULL"
    else
      var parts := Split(venc, "/");
      if |parts| == 3 then "'" + parts[2] + "-" + parts[1] + "-" + parts[0] + " 00:00:00'" else "NULL"
  }

  /** NR_CODIGO_BARRAS: the digits, cut to 48 and quoted; NULL when there are none. */
  function BarcodeSlot(code: string): string {
    if code == "" then "NULL"
    else
      var clean := Take(Digits(code), 48);
      if clean != "" then "'" + clean + "'" else "NULL"
  }

  /** SQ_DOC of a single statement: an SQL expression over the guide number ("0" when there is none). */
  function SqDocExpression(guia: string): string {
    var g := if guia == "" then "0" else guia;
    "(((" + g + " % 1000)" + " * 1000)" + " + (UNIX_TIMESTAMP()" + " % 1000))" + " % 1000000"
  }

  /** VL_PAGO and VL_RECEITA: the total, or the principal when the total normalises to "0.00". */
  function TotalSlot(principal: string, total: string): string
    requires InDomain(principal) && InDomain(total)
  {
    var t := ParseMonetaryValue(total);
    if t == "0.00" then ParseMonetaryValue(principal) else t
  }

  /**
   * The value of column `i` of `generateSQLInsert`'s statement, once the
   * two amounts are normalised. `year` is `time.Now().Year()`, printed into
   * NR_COMPETENCIA; the exercise year defaults to the literal "2025".
   */
  function Column(d: DarmData, year: int, principal: string, total: string, i: nat): string
    requires i < SlotCount
  {
    match i
    case 0 => "NULL"                                   // id
    case 1 => GetDefaultValue(d.exercicio, "2025")     // AA_EXERCICIO
    case 2 => "70"                                     // CD_BANCO
    case 3 => "37"                                     // NR_BDA
    case 4 => "0"                                      // NR_COMPLEMENTO
    case 5 => "730"                                    // NR_LOTE_NSA
    case 6 => "1"                                      // TP_LOTE_D
    case 7 => SqDocExpression(d.numeroGuia)            // SQ_DOC
    case 8 => GetDefaultValue(d.codigoReceita, "2585") // CD_RECEITA
    case 9 => "NULL"                                   // CD_USU_ALT
    case 10 => "'FARR'"                                // CD_USU_INCL
    case 11 => "NULL"                                  // DT_ALT
    case 12 => "NOW()"                                 // DT_INCL
    case 13 => DueDateSlot(d.dataVencimento)           // DT_VENCTO
    case 14 => "NOW()"                                 // DT_PAGTO
    case 15 => "'" + d.inscricao + "'"                 // NR_INSCRICAO
    case 16 => RemoveLeadingZerosAsWritten(d.numeroGuia) // NR_GUIA
    case 17 => IntToString(year)                       // NR_COMPETENCIA
    case 18 => BarcodeSlot(d.codigoBarras)             // NR_CODIGO_BARRAS
    case 19 => "NULL"                                  // NR_LOTE_IPTU
    case 20 => "'13'"                                  // ST_DOC_D
    case 21 => "NULL"                                  // TP_IMPOSTO
    case 22 => total                                   // VL_PAGO
    case 23 => total                                   // VL_RECEITA
    case 24 => principal                               // VL_PRINCIPAL
    case 25 => "0.00"                                  // VL_MORA
    case 26 => "0.00"                                  // VL_MULTA
    case 27 => "NULL"                                  // VL_MULTAF_TCDL
    case 28 => "NULL"                                  // VL_MULTAP_TSD
    case 29 => "NULL"                                  // VL_INSU_TIP
    case 30 => "0.00"                                  // VL_JUROS
    case 31 => "0"                                     // processado
    case _ => "NULL"                                   // criticaProcessamento
  }

  /** The 33 values, in column order. */
  function Row(d: DarmData, year: int, principal: string, total: string): (slots: seq<string>)
    ensures |slots| == SlotCount
  {
    seq(SlotCount, i requires 0 <= i < SlotCount => Column(d, year, principal, total, i))
  }

  /** The values of the statement for a slip. */
  function RowSlots(d: DarmData, year: int): (slots: seq<string>)
    requires InDomain(d.valorPrincipal) && InDomain(d.valorTotal)
    ensures |slots| == SlotCount
  {
    Row(d, year, ParseMonetaryValue(d.valorPrincipal), TotalSlot(d.valorPrincipal, d.valorTotal))
  }

  lemma RowSlotsIsRow(d: DarmData, year: int)
    requires InDomain(d.valorPrincipal) && InDomain(d.valorTotal)
    ensures RowSlots(d, year) == Row(d, year, ParseMonetaryValue(d.valorPrincipal), TotalSlot(d.valorPrincipal, d.valorTotal))
  {
  }

  /**
   * `generateSQLInsert`, lines 679-758: the fixed column list, then the
   * value list closed by ");". The values are `RowSlots`.
   */
  function GenerateSQLInsert(d: DarmData, year: int): (r: string)
    requires InDomain(d.valorPrincipal) && InDomain(d.valorTotal)
    ensures |r| > |Header| + 2 && r[..|Header|] == Header && r[|r| - 2..] == ");"
  {
    InsertStatement(RowSlots(d, year))
  }

  // ---------------------------------------------------------------------
  // What the slots mean
  // ---------------------------------------------------------------------

  /** "0.00" is the only normalised amount worth zero cents. */
  lemma ZeroAmount(r: string)
    requires IsDecimal(r) && |FracPart(r)| == 2 && Canonical(IntPart(r))
    ensures r == "0.00" <==> Cents(r) == 0
  {
    FormatOfCents(r);
    ZeroCents();
  }

  lemma ZeroCents()
    ensures FormatCents(0) == "0.00" && Cents("0.00") == 0
  {
    FormatCentsShape(0);
    assert FormatCents(0) == "0.00";
  }

  /**
   * VL_PAGO and VL_RECEITA hold the total's value, or the principal's when
   * the total is zero, missing or unreadable; either way a normalised amount.
   */
  lemma TotalFallback(principal: string, total: string)
    requires InDomain(principal) && InDomain(total)
    ensures var r, p, t := TotalSlot(principal, total), ParseMonetaryValue(principal), ParseMonetaryValue(total);
      && IsDecimal(r) && |FracPart(r)| == 2 && Canonical(IntPart(r))
      && Cents(r) == (if Cents(t) == 0 then Cents(p) else Cents(t))
  {
    ZeroAmount(ParseMonetaryValue(total));
  }

  /**
   * NR_GUIA, as the code is written: the extracted guide number itself,
   * except that the guide "0" leaves the value empty, where the corrected
   * `RemoveLeadingZeros` would keep it.
   */
  lemma NrGuiaSlot(d: DarmData, year: int, principal: string, total: string)
    requires d.numeroGuia == "" || Canonical(d.numeroGuia)
    ensures var slots := Row(d, year, principal, total);
      && slots[16] == (if d.numeroGuia == "0" then "" else d.numeroGuia)
      && (d.numeroGuia != "0" ==> slots[16] == RemoveLeadingZeros(d.numeroGuia))
      && (d.numeroGuia == "0" ==> RemoveLeadingZeros(d.numeroGuia) == "0")
  {
    GuideColumn(d, year, principal, total);
    GuideRendering(d.numeroGuia);
  }

  lemma GuideColumn(d: DarmData, year: int, principal: string, total: string)
    ensures Row(d, year, principal, total)[16] == RemoveLeadingZerosAsWritten(d.numeroGuia)
  {
    RowColumn(d, year, principal, total, 16);
  }

  /** How both versions of `removeLeadingZeros` treat a guide number as extraction leaves it. */
  lemma GuideRendering(g: string)
    requires g == "" || Canonical(g)
    ensures RemoveLeadingZerosAsWritten(g) == if g == "0" then "" else g
    ensures RemoveLeadingZeros(g) == g
  {
    if g != "" && g != "0" {
      ZerosThenDigit(g, 0);
      NoLeadingZero(g);
    } else if g == "0" {
      RemoveLeadingZerosLosesZero(g);
      OnlyZeros(g);
    }
  }

  lemma RowColumn(d: DarmData, year: int, principal: string, total: string, i: nat)
    requires i < SlotCount
    ensures Row(d, year, principal, total)[i] == Column(d, year, principal, total, i)
  {
  }

  lemma NoLeadingZero(s: string)
    requires s != [] && s[0] != '0'
    ensures RemoveLeadingZerosAsWritten(s) == s
  {
  }

  /** The amounts go into VL_PAGO, VL_RECEITA (both the total) and VL_PRINCIPAL. */
  lemma RowAmountColumns(d: DarmData, year: int, principal: string, total: string)
    ensures var slots := Row(d, year, principal, total);
      slots[22] == total && slots[23] == total && slots[24] == principal
  {
    var slots := Row(d, year, principal, total);
    assert slots[22] == total;
    assert slots[23] == total;
  }

  /**
   * The fallbacks: "2025" for a missing exercise year, "2585" for a missing
   * revenue code, NULL for a missing due date or bar code.
   */
  lemma RowDefaults(d: DarmData, year: int, principal: string, total: string)
    ensures var slots := Row(d, year, principal, total);
      && slots[1] == (if d.exercicio == "" then "2025" else d.exercicio)
      && slots[8] == (if d.codigoReceita == "" then "2585" else d.codigoReceita)
      && (d.dataVencimento == "" ==> slots[13] == "NULL")
      && (d.codigoBarras == "" ==> slots[18] == "NULL")
  {
    var slots := Row(d, year, principal, total);
    assert slots[1] == GetDefaultValue(d.exercicio, "2025");
    assert slots[8] == GetDefaultValue(d.codigoReceita, "2585");
    assert slots[13] == DueDateSlot(d.dataVencimento);
    assert slots[18] == BarcodeSlot(d.codigoBarras);
  }

  /** A "DD/MM/YYYY" text splits on "/" into its three fields. */
  lemma SplitDate(s: string)
    requires IsBRShape(s)
    ensures Split(s, "/") == [s[..2], s[3..5], s[6..]]
  {
    var rest := s[3..5] + "/" + s[6..];
    assert s == s[..2] + "/" + rest;
    assert '/' !in s[..2] by {
      assert forall i :: 0 <= i < 2 ==> IsDigit(s[..2][i]);
    }
    assert '/' !in s[3..5] by {
      assert forall i :: 0 <= i < 2 ==> IsDigit(s[3..5][i]);
    }
    assert '/' !in s[6..] by {
      assert forall i :: 0 <= i < |s[6..]| ==> IsDigit(s[6..][i]);
    }
    SplitAtSep(s[..2], "/", rest);
    SplitAtSep(s[3..5], "/", s[6..]);
    SplitNoSep(s[6..], "/");
  }

  /** Any "DD/MM/YYYY" text is reordered into DT_VENCTO, whether or not the date exists. */
  lemma DueDateShape(s: string)
    requires IsBRShape(s)
    ensures DueDateSlot(s) == "'" + s[6..] + "-" + s[3..5] + "-" + s[..2] + " 00:00:00'"
  {
    SplitDate(s);
  }

  /** For a real date, DT_VENCTO is what `ConvertDateBRToSQL` gives, at midnight. */
  lemma DueDateOfValidDate(s: string)
    requires ParseDateBR(s).Ok?
    ensures ConvertDateBRToSQL(s).Ok?
    ensures DueDateSlot(s) == "'" + ConvertDateBRToSQL(s).value + " 00:00:00'"
  {
    DueDateShape(s);
    ConvertIsReordering(s);
    assert s[6..] == s[6..10] && s[..2] == s[0..2];
  }

  /** The impossible date of the validation test still reaches DT_VENCTO. */
  lemma ExampleUncheckedDueDate(s: string)
    requires s == "32/13/2024"
    ensures ParseDateBR(s).Err?
    ensures DueDateSlot(s) == "'2024-13-32 00:00:00'"
  {
    TextFieldsOf(s, "32", "13", "2024");
    DueDateShape(s);
    ExampleInvalid(s);
    UncheckedDueDateText();
  }

  lemma UncheckedDueDateText()
    ensures "'" + "2024" + "-" + "13" + "-" + "32" + " 00:00:00'" == "'2024-13-32 00:00:00'"
  {
  }

  lemma TextFieldsOf(s: string, dd: string, mm: string, yyyy: string)
    requires |dd| == 2 && |mm| == 2 && |yyyy| == 4 && AllDigits(dd) && AllDigits(mm) && AllDigits(yyyy)
    requires s == dd + "/" + mm + "/" + yyyy
    ensures IsBRShape(s) && s[..2] == dd && s[3..5] == mm && s[6..] == yyyy
  {
    assert s[..2] == dd && s[3..5] == mm && s[6..] == yyyy;
  }

  /** An extracted bar code (at most 48 digits) is cleaned to itself and quoted. */
  lemma BarcodeSlotOfExtracted(code: string)
    requires AllDigits(code) && |code| <= 48
    ensures BarcodeSlot(code) == if code == "" then "NULL" else "'" + code + "'"
  {
    DigitsOfDigits(code);
  }

  // ---------------------------------------------------------------------
  // Slots that the batch file can split back
  // ---------------------------------------------------------------------

  /** A value that contains no comma and no surrounding white space. */
  predicate CleanSlot(s: string) {
    ',' !in s && Trimmed(s)
  }

  predicate CleanSlots(slots: seq<string>) {
    forall i :: 0 <= i < |slots| ==> CleanSlot(slots[i])
  }

  /** What the extraction patterns produce for the fields that reach the statement unquoted or split. */
  predicate CleanFields(d: DarmData) {
    && CleanSlot(d.exercicio)
    && CleanSlot(d.codigoReceita)
    && ',' !in d.inscricao
    && AllDigits(d.numeroGuia)
    && AllDigits(d.codigoBarras)
    && (d.dataVencimento == "" || IsBRShape(d.dataVencimento))
  }

  lemma DigitsClean(s: string)
    requires AllDigits(s)
    ensures CleanSlot(s)
  {
    assert forall i :: 0 <= i < |s| ==> s[i] != ',';
  }

  lemma QuotedClean(s: string)
    requires ',' !in s
    ensures CleanSlot("'" + s + "'")
  {
    var q := "'" + s + "'";
    assert q[0] == '\'' && q[|q| - 1] == '\'';
    assert forall x :: x in q ==> x == '\'' || x in s;
  }

  lemma AmountClean(r: string)
    requires IsDecimal(r) && Canonical(IntPart(r))
    ensures CleanSlot(r)
  {
    assert r[0] == IntPart(r)[0];
    assert DigitOrDot(r[|r| - 1]);
    assert forall i :: 0 <= i < |r| ==> r[i] != ',' by {
      forall i | 0 <= i < |r| ensures r[i] != ',' {
        assert DigitOrDot(r[i]);
      }
    }
  }

  lemma YearClean(year: int)
    ensures CleanSlot(IntToString(year))
  {
    var s := IntToString(year);
    if year >= 0 {
      DigitsClean(s);
    } else {
      assert s[0] == '-';
      assert s == [s[0]] + s[1..];
      DigitsClean(s[1..]);
      assert s[|s| - 1] == s[1..][|s[1..]| - 1];
    }
  }

  lemma SqDocClean(guia: string)
    requires AllDigits(guia)
    ensures CleanSlot(SqDocExpression(guia))
  {
    var g := if guia == "" then "0" else guia;
    DigitsClean(g);
    var e := SqDocExpression(guia);
    assert ',' !in " % 1000)" && ',' !in " * 1000)" && ',' !in " + (UNIX_TIMESTAMP()";
    assert ',' !in " % 1000))" && ',' !in " % 1000000";
    assert e[0] == '(' && e[|e| - 1] == '0';
  }

  lemma DueDateClean(venc: string)
    requires venc == "" || IsBRShape(venc)
    ensures CleanSlot(DueDateSlot(venc))
  {
    if venc != "" {
      DueDateShape(venc);
      var body := venc[6..] + "-" + venc[3..5] + "-" + venc[..2] + " 00:00:00";
      assert DueDateSlot(venc) == "'" + body + "'";
      assert forall x :: x in venc ==> x != ',' by {
        assert forall i :: 0 <= i < |venc| ==> IsDigit(venc[i]) || venc[i] == '/' by {
          forall i | 0 <= i < |venc| ensures IsDigit(venc[i]) || venc[i] == '/' {
            if i < 2 { assert venc[i] == venc[..2][i]; }
            else if 3 <= i < 5 { assert venc[i] == venc[3..5][i - 3]; }
            else if 6 <= i { assert venc[i] == venc[6..][i - 6]; }
          }
        }
      }
      assert forall x :: x in body ==> x in venc || x in "- 00:00:00";
      QuotedClean(body);
    }
  }

  /** With fields as the patterns capture them, no slot holds a comma or surrounding white space. */
  lemma RowSlotsClean(d: DarmData, year: int)
    requires InDomain(d.valorPrincipal) && InDomain(d.valorTotal)
    requires CleanFields(d)
    ensures CleanSlots(RowSlots(d, year))
  {
    RowSlotsIsRow(d, year);
    TotalFallback(d.valorPrincipal, d.valorTotal);
    AmountClean(ParseMonetaryValue(d.valorPrincipal));
    AmountClean(TotalSlot(d.valorPrincipal, d.valorTotal));
    RowClean(d, year, ParseMonetaryValue(d.valorPrincipal), TotalSlot(d.valorPrincipal, d.valorTotal));
  }

  lemma RowClean(d: DarmData, year: int, principal: string, total: string)
    requires CleanFields(d) && CleanSlot(principal) && CleanSlot(total)
    ensures CleanSlots(Row(d, year, principal, total))
  {
    var slots := Row(d, year, principal, total);
    forall i | 0 <= i < |slots| ensures CleanSlot(slots[i]) {
      ColumnClean(d, year, principal, total, i);
    }
  }

  lemma ColumnClean(d: DarmData, year: int, principal: string, total: string, i: nat)
    requires CleanFields(d) && CleanSlot(principal) && CleanSlot(total) && i < SlotCount
    ensures CleanSlot(Column(d, year, principal, total, i))
  {
    if i == 1 || i == 8 || 22 <= i <= 24 {
    } else if i == 7 {
      SqDocClean(d.numeroGuia);
    } else if i == 13 {
      DueDateClean(d.dataVencimento);
    } else if i == 15 {
      QuotedClean(d.inscricao);
    } else if i == 16 {
      GuideSlotClean(d.numeroGuia);
    } else if i == 17 {
      YearClean(year);
    } else if i == 18 {
      BarcodeClean(d.codigoBarras);
    } else {
      ConstantColumn(d, year, principal, total, i);
      ConstantsClean();
    }
  }

  /** The columns that do not depend on the slip. */
  lemma ConstantColumn(d: DarmData, year: int, principal: string, total: string, i: nat)
    requires i < SlotCount && i !in {1, 7, 8, 13, 15, 16, 17, 18, 22, 23, 24}
    ensures Column(d, year, principal, total, i) in ["NULL", "70", "37", "0", "730", "1", "'FARR'", "NOW()", "'13'", "0.00"]
  {
  }

  lemma GuideSlotClean(guia: string)
    requires AllDigits(guia)
    ensures CleanSlot(RemoveLeadingZerosAsWritten(guia))
  {
    var g := RemoveLeadingZerosAsWritten(guia);
    var m := |guia| - |g|;
    assert AllDigits(g) by {
      forall k | 0 <= k < |g| ensures IsDigit(g[k]) {
        assert g[k] == guia[m + k];
      }
    }
    DigitsClean(g);
  }

  lemma BarcodeClean(code: string)
    requires AllDigits(code)
    ensures CleanSlot(BarcodeSlot(code))
  {
    if code != "" {
      var clean := Take(Digits(code), 48);
      if clean != "" {
        assert forall x :: x in clean ==> IsDigit(x);
        QuotedClean(clean);
      }
    }
  }

  lemma ConstantsClean()
    ensures CleanSlot("NULL") && CleanSlot("70") && CleanSlot("37") && CleanSlot("0") && CleanSlot("730")
    ensures CleanSlot("1") && CleanSlot("'FARR'") && CleanSlot("NOW()") && CleanSlot("'13'") && CleanSlot("0.00")
  {
  }
}
