/**
 * `generateSingleSQLFile` (darm_processor.go, lines 164-254): every
 * statement gathered during a run is cut back to its value list, given a
 * numeric SQ_DOC, and laid out again as one row of a single multi-row
 * INSERT.
 */
module Batch {
  import opened Wrappers
  import opened Strings
  import opened Insert

  /**
   * `valuesRegex` (line 60) applied to a statement: the text between
   * "VALUES (" and the first ");", or None when there is no such text. The
   * regular expression engine is not modelled.
   */
  type ValuesMatcher = string -> Option<string>

  const Parens: set<char> := {'(', ')'}

  function TrimAll(xs: seq<string>): (r: seq<string>)
    ensures |r| == |xs|
    ensures forall i :: 0 <= i < |xs| ==> r[i] == TrimSpace(xs[i])
  {
    seq(|xs|, i requires 0 <= i < |xs| => TrimSpace(xs[i]))
  }

  /**
   * The SQ_DOC given to the statement at position `index`, lines 186-191:
   * the last three digits of the guide number (Go's truncating `%`), then
   * those of the millisecond timestamp, plus the position.
   */
  function SqDoc(guia: string, timestamp: int, index: nat): int {
    GoRem(Atoi(guia), 1000) * 1000 + GoRem(timestamp, 1000) + index
  }

  /** A value list with its SQ_DOC (the eighth value) replaced. */
  function Stamp(values: seq<string>, guia: string, timestamp: int, index: nat): seq<string>
    requires |values| > 7
  {
    values[7 := IntToString(SqDoc(guia, timestamp, index))]
  }

  /** What the first loop makes of one statement. */
  datatype RowOutcome =
    | Skipped            // the regular expression did not match
    | IndexPanic         // `valores[7]` on fewer than eight values
    | Simple(stmt: string)

  function SimpleRow(insert: string, index: nat, guias: seq<string>, timestamp: int, valuesOf: ValuesMatcher): RowOutcome {
    match valuesOf(insert)
    case None => Skipped
    case Some(part) =>
      var values := TrimAll(Split(part, ","));
      if index < |guias| then
        if |values| <= 7 then IndexPanic
        else Simple("(" + Join(Stamp(values, guias[index], timestamp, index), ", ") + ")")
      else Simple("(" + Join(values, ", ") + ")")
  }

  /** How one outcome extends the statements gathered so far. */
  function Step(prev: Option<seq<string>>, o: RowOutcome): Option<seq<string>> {
    match prev
    case None => None
    case Some(stmts) =>
      match o
      case Skipped => prev
      case IndexPanic => None
      case Simple(stmt) => Some(stmts + [stmt])
  }

  /** The skeleton of the first loop, lines 174-196, given what it makes of each statement: None once it panics. */
  function Gather(inserts: seq<string>, outcome: (string, nat) -> RowOutcome): Option<seq<string>>
    decreases |inserts|
  {
    if inserts == [] then Some([])
    else
      var n := |inserts| - 1;
      Step(Gather(inserts[..n], outcome), outcome(inserts[n], n))
  }

  /** What the first loop makes of each statement. */
  function Outcomes(guias: seq<string>, timestamp: int, valuesOf: ValuesMatcher): (string, nat) -> RowOutcome {
    (insert: string, index: nat) => SimpleRow(insert, index, guias, timestamp, valuesOf)
  }

  /** The first loop, lines 174-196: None when it panics. */
  function SimpleStatements(inserts: seq<string>, guias: seq<string>, timestamp: int, valuesOf: ValuesMatcher): Option<seq<string>> {
    Gather(inserts, Outcomes(guias, timestamp, valuesOf))
  }

  lemma GatherPrefix(inserts: seq<string>, n: nat, outcome: (string, nat) -> RowOutcome)
    requires n < |inserts|
    ensures Gather(inserts[..n + 1], outcome) == Step(Gather(inserts[..n], outcome), outcome(inserts[n], n))
  {
    assert inserts[..n + 1][..n] == inserts[..n];
  }

  /** One row of the file: its 33 values, indented under an opening parenthesis. */
  function RowBlock(values: seq<string>): string {
    Indent4 + "(" + Layout(values, Indent8) + Indent4 + ")"
  }

  /** The second loop's body, lines 200-223: rows with fewer than 33 values are dropped. */
  function FormatRow(stmt: string): Option<string> {
    var values := Split(Trim(stmt, Parens), ", ");
    if |values| >= SlotCount then Some(RowBlock(values[..SlotCount])) else None
  }

  function FormattedRows(stmts: seq<string>): seq<string>
    decreases |stmts|
  {
    if stmts == [] then []
    else
      var n := |stmts| - 1;
      FormattedRows(stmts[..n]) + (match FormatRow(stmts[n]) case Some(row) => [row] case None => [])
  }

  /** The file written, lines 226-240. */
  function SingleFileContent(rows: seq<string>): string {
    Header + " VALUES\n" + Join(rows, ",\n") + ";"
  }

  datatype BatchOutcome =
    | NothingToWrite     // no statement was gathered: no file
    | Panic              // the run stops in the first loop
    | Written(content: string)

  function SingleFile(inserts: seq<string>, guias: seq<string>, timestamp: int, valuesOf: ValuesMatcher): (r: BatchOutcome)
    ensures r == NothingToWrite <==> inserts == []
  {
    if inserts == [] then NothingToWrite
    else
      match SimpleStatements(inserts, guias, timestamp, valuesOf)
      case None => Panic
      case Some(stmts) => Written(SingleFileContent(FormattedRows(stmts)))
  }

  /** A panic in a prefix of the statements is a panic of the whole loop. */
  lemma {:induction false} PanicPropagates(inserts: seq<string>, n: nat, outcome: (string, nat) -> RowOutcome)
    requires n <= |inserts|
    requires Gather(inserts[..n], outcome) == None
    ensures Gather(inserts, outcome) == None
    decreases |inserts| - n
  {
    if n < |inserts| {
      GatherPrefix(inserts, n, outcome);
      PanicPropagates(inserts, n + 1, outcome);
    } else {
      assert inserts[..n] == inserts;
    }
  }

  /** Lines 179-182: every piece trimmed in place. */
  method TrimValues(pieces: seq<string>) returns (values: seq<string>)
    ensures values == TrimAll(pieces)
  {
    values := pieces;
    var i := 0;
    while i < |values|
      invariant 0 <= i <= |values| == |pieces|
      invariant forall j :: 0 <= j < i ==> values[j] == TrimSpace(pieces[j])
      invariant forall j :: i <= j < |values| ==> values[j] == pieces[j]
    {
      values := values[i := TrimSpace(values[i])];
      i := i + 1;
    }
  }

  /** The body of the first loop, lines 176-195, for the statement at position `index`. */
  method SimpleRowOf(insert: string, index: nat, guias: seq<string>, timestamp: int, valuesOf: ValuesMatcher)
    returns (o: RowOutcome)
    ensures o == SimpleRow(insert, index, guias, timestamp, valuesOf)
  {
    var matches := valuesOf(insert);
    if matches.None? {
      return Skipped;
    }
    var values := TrimValues(Split(matches.value, ","));
    if index < |guias| {
      if |values| <= 7 {
        return IndexPanic;
      }
      var guiaInt := Atoi(guias[index]);
      var sqDoc := GoRem(guiaInt, 1000) * 1000 + GoRem(timestamp, 1000) + index;
      values := values[7 := IntToString(sqDoc)];
    }
    o := Simple("(" + Join(values, ", ") + ")");
  }

  /** The first loop, lines 174-196. */
  method CollectSimpleStatements(inserts: seq<string>, guias: seq<string>, timestamp: int, valuesOf: ValuesMatcher)
    returns (r: Option<seq<string>>)
    ensures r == SimpleStatements(inserts, guias, timestamp, valuesOf)
  {
    ghost var outcome := Outcomes(guias, timestamp, valuesOf);
    var simple: seq<string> := [];
    var index := 0;
    while index < |inserts|
      invariant 0 <= index <= |inserts|
      invariant Gather(inserts[..index], outcome) == Some(simple)
    {
      GatherPrefix(inserts, index, outcome);
      var o := SimpleRowOf(inserts[index], index, guias, timestamp, valuesOf);
      assert o == outcome(inserts[index], index);
      if o.IndexPanic? {
        PanicPropagates(inserts, index + 1, outcome);
        return None;
      }
      if o.Simple? {
        simple := simple + [o.stmt];
      }
      index := index + 1;
    }
    assert inserts[..index] == inserts;
    return Some(simple);
  }

  /** The second loop, lines 199-224. */
  method FormatStatements(simple: seq<string>) returns (formatted: seq<string>)
    ensures formatted == FormattedRows(simple)
  {
    formatted := [];
    var k := 0;
    while k < |simple|
      invariant 0 <= k <= |simple|
      invariant formatted == FormattedRows(simple[..k])
    {
      assert simple[..k + 1][..k] == simple[..k];
      var values := Split(Trim(simple[k], Parens), ", ");
      if |values| >= SlotCount {
        formatted := formatted + [RowBlock(values[..SlotCount])];
      }
      k := k + 1;
    }
    assert simple[..k] == simple;
  }

  /**
   * `generateSingleSQLFile`, lines 164-254, up to the file write: the
   * timestamp is a parameter and the file's content is returned.
   */
  method GenerateSingleSQLFile(inserts: seq<string>, guias: seq<string>, timestamp: int, valuesOf: ValuesMatcher)
    returns (out: BatchOutcome)
    ensures out == SingleFile(inserts, guias, timestamp, valuesOf)
  {
    if |inserts| == 0 {
      return NothingToWrite;
    }
    var simple := CollectSimpleStatements(inserts, guias, timestamp, valuesOf);
    if simple.None? {
      return Panic;
    }
    var formatted := FormatStatements(simple.value);
    out := Written(SingleFileContent(formatted));
  }

  // ---------------------------------------------------------------------
  // The value lists survive the round trip through the text
  // ---------------------------------------------------------------------

  lemma PieceParts(slots: seq<string>, i: nat, indent: string)
    requires i < |slots| && AllSpace(indent)
    ensures AllSpace(Lead(i, indent)) && ',' !in Lead(i, indent)
    ensures AllSpace(Tail(|slots|, i)) && ',' !in Tail(|slots|, i)
  {
    var w := Lead(i, indent);
    if StartsLine(i) {
      assert forall k :: 0 <= k < |indent| ==> w[k + 1] == indent[k];
      assert AllSpace(w);
      assert forall k :: 0 <= k < |w| ==> IsSpace(w[k]);
    }
  }

  /**
   * Splitting a laid-out value list on "," and trimming each piece gives
   * the values back, provided none holds a comma or surrounding blanks.
   */
  lemma LayoutSplits(slots: seq<string>, indent: string)
    requires |slots| >= 1 && CleanSlots(slots) && AllSpace(indent)
    ensures TrimAll(Split(Layout(slots, indent), ",")) == slots
  {
    var ps := Pieces(slots, indent);
    forall i | 0 <= i < |ps| ensures ',' !in ps[i] && TrimSpace(ps[i]) == slots[i] {
      PieceParts(slots, i, indent);
      var w, v := Lead(i, indent), Tail(|slots|, i);
      assert ps[i] == w + slots[i] + v;
      TrimSpaceAround(w, slots[i], v);
      assert forall x :: x in ps[i] ==> x in w || x in slots[i] || x in v;
    }
    SplitJoin(ps, ",");
  }

  lemma JoinFirst(xs: seq<string>, sep: string)
    requires |xs| >= 1 && xs[0] != []
    ensures var j := Join(xs, sep); j != [] && j[0] == xs[0][0]
  {
  }

  lemma {:induction false} JoinLast(xs: seq<string>, sep: string)
    requires |xs| >= 1 && xs[|xs| - 1] != []
    ensures var j := Join(xs, sep); j != [] && j[|j| - 1] == xs[|xs| - 1][|xs[|xs| - 1]| - 1]
  {
    if |xs| > 1 {
      assert xs[1..][|xs| - 2] == xs[|xs| - 1];
      JoinLast(xs[1..], sep);
    }
  }

  /** A row of 33 clean values, starting and ending with NULL, as the second loop reads it. */
  predicate RenderedRow(slots: seq<string>) {
    |slots| == SlotCount && CleanSlots(slots) && slots[0] == "NULL" && slots[SlotCount - 1] == "NULL"
  }

  /** A parenthesised row of rendered values is cut back to those values and laid out. */
  lemma FormatJoined(slots: seq<string>)
    requires RenderedRow(slots)
    ensures FormatRow("(" + Join(slots, ", ") + ")") == Some(RowBlock(slots))
  {
    var j := Join(slots, ", ");
    JoinFirst(slots, ", ");
    JoinLast(slots, ", ");
    assert "(" + j + ")" == ['('] + j + [')'];
    TrimOfBracketed('(', j, ')', Parens);
    forall i | 0 <= i < |slots| ensures ", "[0] !in slots[i] {
      assert CleanSlot(slots[i]);
    }
    SplitJoin(slots, ", ");
    assert slots[..SlotCount] == slots;
  }

  /** A stamped SQ_DOC is a clean value. */
  lemma StampRendered(slots: seq<string>, guia: string, timestamp: int, index: nat)
    requires RenderedRow(slots)
    ensures RenderedRow(Stamp(slots, guia, timestamp, index))
  {
    YearClean(SqDoc(guia, timestamp, index));
  }

  // ---------------------------------------------------------------------
  // The file a run writes
  // ---------------------------------------------------------------------

  function Statements(rows: seq<seq<string>>): (r: seq<string>)
    ensures |r| == |rows|
  {
    seq(|rows|, k requires 0 <= k < |rows| => InsertStatement(rows[k]))
  }

  function StampedRow(rows: seq<seq<string>>, guias: seq<string>, timestamp: int, k: nat): seq<string>
    requires k < |rows| && k < |guias| && |rows[k]| > 7
  {
    Stamp(rows[k], guias[k], timestamp, k)
  }

  /** What the regular expression must do for the model: find the value list of each statement. */
  ghost predicate CapturesValueLists(rows: seq<seq<string>>, valuesOf: ValuesMatcher) {
    forall k :: 0 <= k < |rows| ==> valuesOf(InsertStatement(rows[k])) == Some(Layout(rows[k], Indent4))
  }

  ghost predicate Rendered(rows: seq<seq<string>>) {
    forall k :: 0 <= k < |rows| ==> RenderedRow(rows[k])
  }

  /** The parenthesised value list the first loop produces for rendered row `k`. */
  function SimpleText(rows: seq<seq<string>>, guias: seq<string>, timestamp: int, k: nat): string
    requires k < |rows| && k < |guias| && |rows[k]| > 7
  {
    "(" + Join(StampedRow(rows, guias, timestamp, k), ", ") + ")"
  }

  /** The parenthesised value lists the first loop produces for the first `n` rendered rows. */
  ghost function SimpleTexts(rows: seq<seq<string>>, guias: seq<string>, timestamp: int, n: nat): (r: seq<string>)
    requires n <= |rows| <= |guias| && Rendered(rows)
    ensures |r| == n
  {
    seq(n, k requires 0 <= k < n => SimpleText(rows, guias, timestamp, k))
  }

  /** The row blocks the second loop produces for the first `n` rendered rows. */
  ghost function Blocks(rows: seq<seq<string>>, guias: seq<string>, timestamp: int, n: nat): (r: seq<string>)
    requires n <= |rows| <= |guias| && Rendered(rows)
    ensures |r| == n
  {
    seq(n, k requires 0 <= k < n => RowBlock(StampedRow(rows, guias, timestamp, k)))
  }

  /** The first loop yields, in order, one text per statement when each statement yields one. */
  lemma {:induction false} GatherAll(inserts: seq<string>, outs: seq<string>, outcome: (string, nat) -> RowOutcome)
    requires |inserts| == |outs|
    requires forall k :: 0 <= k < |inserts| ==> outcome(inserts[k], k) == Simple(outs[k])
    ensures Gather(inserts, outcome) == Some(outs)
    decreases |inserts|
  {
    if inserts != [] {
      var n := |inserts| - 1;
      assert inserts[..n + 1] == inserts;
      GatherPrefix(inserts, n, outcome);
      GatherAll(inserts[..n], outs[..n], outcome);
      assert outs == outs[..n] + [outs[n]];
    }
  }

  /** The first loop's treatment of one rendered row: its values, trimmed back, with the SQ_DOC stamped. */
  lemma SimpleRowOfRendered(rows: seq<seq<string>>, m: nat, guias: seq<string>, timestamp: int, valuesOf: ValuesMatcher)
    requires m < |rows| <= |guias|
    requires Rendered(rows) && CapturesValueLists(rows, valuesOf)
    ensures SimpleRow(Statements(rows)[m], m, guias, timestamp, valuesOf) == Simple(SimpleText(rows, guias, timestamp, m))
  {
    assert RenderedRow(rows[m]);
    assert valuesOf(InsertStatement(rows[m])) == Some(Layout(rows[m], Indent4));
    assert AllSpace(Indent4) by {
      assert forall k :: 0 <= k < |Indent4| ==> Indent4[k] == ' ';
    }
    LayoutSplits(rows[m], Indent4);
  }

  /** The second loop yields, in order, one block per statement when each statement yields one. */
  lemma {:induction false} FormattedAll(texts: seq<string>, blocks: seq<string>)
    requires |texts| == |blocks|
    requires forall k :: 0 <= k < |texts| ==> FormatRow(texts[k]) == Some(blocks[k])
    ensures FormattedRows(texts) == blocks
    decreases |texts|
  {
    if texts != [] {
      var n := |texts| - 1;
      FormattedAll(texts[..n], blocks[..n]);
      assert blocks == blocks[..n] + [blocks[n]];
    }
  }

  /** The second loop's treatment of one stamped row: laid out again, value for value. */
  lemma FormatRowOfRendered(rows: seq<seq<string>>, m: nat, guias: seq<string>, timestamp: int)
    requires m < |rows| <= |guias| && Rendered(rows)
    ensures FormatRow(SimpleText(rows, guias, timestamp, m)) == Some(RowBlock(StampedRow(rows, guias, timestamp, m)))
  {
    assert RenderedRow(rows[m]);
    StampRendered(rows[m], guias[m], timestamp, m);
    FormatJoined(StampedRow(rows, guias, timestamp, m));
  }

  /**
   * The consolidated file holds one row per gathered statement, in the
   * order gathered, nothing merged or dropped, each with the values of its
   * statement and the SQ_DOC of its position in place of the SQL
   * expression.
   */
  lemma ConsolidateRendered(rows: seq<seq<string>>, guias: seq<string>, timestamp: int, valuesOf: ValuesMatcher)
    requires |rows| <= |guias|
    requires Rendered(rows) && CapturesValueLists(rows, valuesOf)
    ensures SingleFile(Statements(rows), guias, timestamp, valuesOf)
      == if rows == [] then NothingToWrite
         else Written(SingleFileContent(Blocks(rows, guias, timestamp, |rows|)))
  {
    var texts := SimpleTexts(rows, guias, timestamp, |rows|);
    forall k | 0 <= k < |rows|
      ensures SimpleRow(Statements(rows)[k], k, guias, timestamp, valuesOf) == Simple(texts[k])
      ensures FormatRow(texts[k]) == Some(Blocks(rows, guias, timestamp, |rows|)[k])
    {
      SimpleRowOfRendered(rows, k, guias, timestamp, valuesOf);
      FormatRowOfRendered(rows, k, guias, timestamp);
    }
    GatherAll(Statements(rows), texts, Outcomes(guias, timestamp, valuesOf));
    FormattedAll(texts, Blocks(rows, guias, timestamp, |rows|));
  }

  /** The rows `generateSQLInsert` renders meet the conditions above. */
  lemma InsertRowsRendered(d: Extraction.DarmData, year: int)
    requires Monetary.InDomain(d.valorPrincipal) && Monetary.InDomain(d.valorTotal)
    requires CleanFields(d)
    ensures RenderedRow(RowSlots(d, year))
  {
    RowSlotsClean(d, year);
    RowSlotsIsRow(d, year);
  }

  /** When no statement matches, the file is still written, with an empty value list. */
  lemma {:induction false} NoMatchWritesEmptyList(inserts: seq<string>, guias: seq<string>, timestamp: int, valuesOf: ValuesMatcher)
    requires inserts != []
    requires forall k :: 0 <= k < |inserts| ==> valuesOf(inserts[k]) == None
    ensures SingleFile(inserts, guias, timestamp, valuesOf) == Written(Header + " VALUES\n;")
  {
    NoMatchPrefix(inserts, |inserts|, guias, timestamp, valuesOf);
    assert inserts[..|inserts|] == inserts;
  }

  lemma {:induction false} NoMatchPrefix(inserts: seq<string>, n: nat, guias: seq<string>, timestamp: int, valuesOf: ValuesMatcher)
    requires n <= |inserts|
    requires forall k :: 0 <= k < |inserts| ==> valuesOf(inserts[k]) == None
    ensures Gather(inserts[..n], Outcomes(guias, timestamp, valuesOf)) == Some([])
  {
    if n > 0 {
      GatherPrefix(inserts, n - 1, Outcomes(guias, timestamp, valuesOf));
      NoMatchPrefix(inserts, n - 1, guias, timestamp, valuesOf);
    }
  }

  /** The second loop keeps the order of the statements and drops, never adds, rows. */
  lemma {:induction false} FormattedRowsAppend(a: seq<string>, b: seq<string>)
    ensures FormattedRows(a + b) == FormattedRows(a) + FormattedRows(b)
    ensures |FormattedRows(a)| <= |a|
    decreases |b|
  {
    if b == [] {
      assert a + b == a;
      FormattedRowsLength(a);
    } else {
      var n := |b| - 1;
      assert (a + b)[..|a + b| - 1] == a + b[..n];
      FormattedRowsAppend(a, b[..n]);
    }
  }

  lemma {:induction false} FormattedRowsLength(a: seq<string>)
    ensures |FormattedRows(a)| <= |a|
  {
    if a != [] {
      FormattedRowsLength(a[..|a| - 1]);
    }
  }

  // ---------------------------------------------------------------------
  // SQ_DOC
  // ---------------------------------------------------------------------

  /** Within the first thousand statements of a run, SQ_DOCs are distinct, whatever the guides. */
  lemma SqDocDistinct(ga: string, gb: string, timestamp: int, i: nat, j: nat)
    requires i < 1000 && j < 1000 && i != j
    ensures SqDoc(ga, timestamp, i) != SqDoc(gb, timestamp, j)
  {
    var a, b := GoRem(Atoi(ga), 1000), GoRem(Atoi(gb), 1000);
    if a == b {
    } else if a < b {
      assert a * 1000 + 1000 <= b * 1000;
    } else {
      assert b * 1000 + 1000 <= a * 1000;
    }
  }

  /** Past a thousand statements they collide: guide "1" at position 0 and guide "0" at position 1000. */
  lemma SqDocCollision(one: string, zero: string, timestamp: int)
    requires one == "1" && zero == "0"
    ensures SqDoc(one, timestamp, 0) == SqDoc(zero, timestamp, 1000)
  {
    assert one[..0] == [] && zero[..0] == [];
    AtoiCanonical(one);
    AtoiCanonical(zero);
  }
}
