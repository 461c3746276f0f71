/**
 * `DarmProcessor` (darm_processor.go): the lists a run keeps while it reads
 * slips — the guide numbers seen and the statements written — and the
 * unique-guide list the report counts.
 *
 * `processPDFFile` records a guide before writing the slip's file and its
 * statement only after the write succeeds, so one failed write pairs every
 * later statement with the guide of the slip before it when the batch file
 * stamps SQ_DOC from `guias[index]`. The lists as written are
 * `RecordAsWritten`, which the processor below follows; `Record` is the
 * corrected bookkeeping that appends both together.
 */
module Processor {
  import opened Wrappers
  import opened Monetary
  import opened Extraction
  import opened Insert

  /** One slip read: the guide found in it, the statement rendered for it, and whether its file was written. */
  datatype Attempt = Attempt(guia: string, insert: string, written: bool)

  /** `GuiasProcessadas` and `AllSQLInserts`. */
  datatype Ledger = Ledger(guias: seq<string>, inserts: seq<string>)

  /** Lines 454-469 as written: the guide goes in before the write, the statement only after a successful one. */
  function RecordAsWritten(l: Ledger, a: Attempt): Ledger {
    Ledger(l.guias + [a.guia], if a.written then l.inserts + [a.insert] else l.inserts)
  }

  /** Guide and statement recorded together, once the file is written. */
  function Record(l: Ledger, a: Attempt): Ledger {
    if a.written then Ledger(l.guias + [a.guia], l.inserts + [a.insert]) else l
  }

  /** The lists after a run, as written. */
  function AsWrittenRun(attempts: seq<Attempt>): Ledger
    decreases |attempts|
  {
    if attempts == [] then Ledger([], [])
    else
      var n := |attempts| - 1;
      RecordAsWritten(AsWrittenRun(attempts[..n]), attempts[n])
  }

  /** The lists after a run, recorded together. */
  function Run(attempts: seq<Attempt>): Ledger
    decreases |attempts|
  {
    if attempts == [] then Ledger([], [])
    else
      var n := |attempts| - 1;
      Record(Run(attempts[..n]), attempts[n])
  }

  /** The attempts whose file was written, in order. */
  function Filed(attempts: seq<Attempt>): (r: seq<Attempt>)
    ensures |r| <= |attempts|
    ensures forall a :: a in r ==> a in attempts && a.written
    ensures forall a :: a in attempts && a.written ==> a in r
    decreases |attempts|
  {
    if attempts == [] then []
    else
      var n := |attempts| - 1;
      Filed(attempts[..n]) + if attempts[n].written then [attempts[n]] else []
  }

  function Guides(attempts: seq<Attempt>): (r: seq<string>)
    ensures |r| == |attempts| && forall k :: 0 <= k < |r| ==> r[k] == attempts[k].guia
  {
    seq(|attempts|, k requires 0 <= k < |attempts| => attempts[k].guia)
  }

  function Inserts(attempts: seq<Attempt>): (r: seq<string>)
    ensures |r| == |attempts| && forall k :: 0 <= k < |r| ==> r[k] == attempts[k].insert
  {
    seq(|attempts|, k requires 0 <= k < |attempts| => attempts[k].insert)
  }

  /** As written, every slip's guide is listed, but only the written slips' statements. */
  lemma {:induction false} AsWrittenRunLists(attempts: seq<Attempt>)
    ensures AsWrittenRun(attempts) == Ledger(Guides(attempts), Inserts(Filed(attempts)))
    decreases |attempts|
  {
    if attempts != [] {
      var n := |attempts| - 1;
      AsWrittenRunLists(attempts[..n]);
      assert Guides(attempts) == Guides(attempts[..n]) + [attempts[n].guia];
      var f := Filed(attempts[..n]);
      if attempts[n].written {
        assert Inserts(f + [attempts[n]]) == Inserts(f) + [attempts[n].insert];
      }
    }
  }

  /**
   * Recorded together, both lists come from the written slips: position k
   * of each belongs to the same slip, so the batch file stamps every
   * statement with the guide of its own slip.
   */
  lemma {:induction false} RunLists(attempts: seq<Attempt>)
    ensures Run(attempts) == Ledger(Guides(Filed(attempts)), Inserts(Filed(attempts)))
    decreases |attempts|
  {
    if attempts != [] {
      var n := |attempts| - 1;
      RunLists(attempts[..n]);
      var f := Filed(attempts[..n]);
      if attempts[n].written {
        assert Guides(f + [attempts[n]]) == Guides(f) + [attempts[n].guia];
        assert Inserts(f + [attempts[n]]) == Inserts(f) + [attempts[n].insert];
      }
    }
  }

  /** When every write succeeds the two ways of recording agree. */
  lemma {:induction false} AllWrittenAgree(attempts: seq<Attempt>)
    requires forall k :: 0 <= k < |attempts| ==> attempts[k].written
    ensures AsWrittenRun(attempts) == Run(attempts)
    decreases |attempts|
  {
    if attempts != [] {
      var n := |attempts| - 1;
      AllWrittenAgree(attempts[..n]);
    }
  }

  lemma {:induction false} FiledFull(attempts: seq<Attempt>)
    requires forall k :: 0 <= k < |attempts| ==> attempts[k].written
    ensures |Filed(attempts)| == |attempts|
    decreases |attempts|
  {
    if attempts != [] {
      var n := |attempts| - 1;
      var init := attempts[..n];
      assert forall k :: 0 <= k < |init| ==> init[k].written;
      FiledFull(init);
      assert Filed(attempts) == Filed(init) + [attempts[n]];
    }
  }

  lemma {:induction false} FiledDrops(attempts: seq<Attempt>, k: nat)
    requires k < |attempts| && !attempts[k].written
    ensures |Filed(attempts)| < |attempts|
    decreases |attempts|
  {
    var n := |attempts| - 1;
    var init := attempts[..n];
    if k < n {
      assert init[k] == attempts[k];
      FiledDrops(init, k);
      assert |Filed(attempts)| <= |Filed(init)| + 1;
    } else {
      assert Filed(attempts) == Filed(init);
    }
  }

  /**
   * As written, the statements never outnumber the guides, and the two
   * lists have the same length exactly when no write failed.
   */
  lemma AsWrittenPaired(attempts: seq<Attempt>)
    ensures |AsWrittenRun(attempts).inserts| <= |AsWrittenRun(attempts).guias|
    ensures |AsWrittenRun(attempts).inserts| == |AsWrittenRun(attempts).guias| <==>
      forall k :: 0 <= k < |attempts| ==> attempts[k].written
  {
    AsWrittenRunLists(attempts);
    if forall k :: 0 <= k < |attempts| ==> attempts[k].written {
      FiledFull(attempts);
    } else {
      var k :| 0 <= k < |attempts| && !attempts[k].written;
      FiledDrops(attempts, k);
    }
  }

  /**
   * One failed write is enough to shift the lists as written: the statement
   * of the second slip sits beside the guide of the first, while recorded
   * together it sits beside its own.
   */
  lemma DriftAfterFailedWrite(a: Attempt, b: Attempt)
    requires !a.written && b.written && a.guia != b.guia
    ensures AsWrittenRun([a, b]) == Ledger([a.guia, b.guia], [b.insert])
    ensures AsWrittenRun([a, b]).guias[0] != b.guia
    ensures Run([a, b]) == Ledger([b.guia], [b.insert])
  {
    assert [a, b][..1] == [a];
    assert [a][..0] == [];
    assert AsWrittenRun([a]) == Ledger([a.guia], []);
    assert Run([a]) == Ledger([], []);
  }

  /** A set of guides, as `ProcessedGuias` keeps them. */
  function Seen(guias: seq<string>): (r: set<string>)
    ensures forall g :: g in r <==> g in guias
  {
    set g | g in guias
  }

  predicate Distinct(s: seq<string>) {
    forall i, j :: 0 <= i < j < |s| ==> s[i] != s[j]
  }

  class DarmProcessor {
    var processedGuias: set<string>
    var guiasProcessadas: seq<string>
    var allSqlInserts: seq<string>
    /** The slips read so far, in order. */
    ghost var attempts: seq<Attempt>

    /** The lists are the as-written record of the slips read so far. */
    ghost predicate Valid()
      reads this
    {
      && AsWrittenRun(attempts) == Ledger(guiasProcessadas, allSqlInserts)
      && processedGuias == Seen(guiasProcessadas)
    }

    /** `NewDarmProcessor`, lines 90-105, without the directories. */
    constructor ()
      ensures Valid() && attempts == []
      ensures processedGuias == {} && guiasProcessadas == [] && allSqlInserts == []
    {
      processedGuias := {};
      guiasProcessadas := [];
      allSqlInserts := [];
      attempts := [];
    }

    /**
     * `processPDFFile`, lines 433-476, from the extracted text on: the guide
     * is recorded before the file is written and the statement only after a
     * successful write. `writeOk` is whether the write succeeded; `failed`
     * is whether the call returns an error.
     */
    method ProcessText(p: Patterns, text: string, year: int, writeOk: bool) returns (failed: bool)
      requires Valid()
      requires ExtractDarmData(p, text).Some? ==>
        InDomain(ExtractDarmData(p, text).value.valorPrincipal) && InDomain(ExtractDarmData(p, text).value.valorTotal)
      modifies this
      ensures Valid()
      ensures ExtractDarmData(p, text).None? ==>
        !failed && attempts == old(attempts)
        && guiasProcessadas == old(guiasProcessadas) && allSqlInserts == old(allSqlInserts)
        && processedGuias == old(processedGuias)
      ensures ExtractDarmData(p, text).Some? ==>
        var d := ExtractDarmData(p, text).value;
        && failed == !writeOk
        && attempts == old(attempts) + [Attempt(d.numeroGuia, GenerateSQLInsert(d, year), writeOk)]
        && guiasProcessadas == old(guiasProcessadas) + [d.numeroGuia]
        && allSqlInserts == old(allSqlInserts) + (if writeOk then [GenerateSQLInsert(d, year)] else [])
        && processedGuias == old(processedGuias) + {d.numeroGuia}
    {
      var data := ExtractDarmData(p, text);
      if data.None? {
        return false;
      }
      failed := RecordSlip(data.value, GenerateSQLInsert(data.value, year), writeOk);
    }

    /** Lines 453-469 for one extracted slip and its rendered statement. */
    method RecordSlip(d: DarmData, sqlContent: string, writeOk: bool) returns (failed: bool)
      requires Valid()
      modifies this
      ensures Valid()
      ensures failed == !writeOk
      ensures attempts == old(attempts) + [Attempt(d.numeroGuia, sqlContent, writeOk)]
      ensures guiasProcessadas == old(guiasProcessadas) + [d.numeroGuia]
      ensures allSqlInserts == old(allSqlInserts) + (if writeOk then [sqlContent] else [])
      ensures processedGuias == old(processedGuias) + {d.numeroGuia}
    {
      attempts := attempts + [Attempt(d.numeroGuia, sqlContent, writeOk)];
      assert attempts[..|attempts| - 1] == old(attempts);
      processedGuias := processedGuias + {d.numeroGuia};
      guiasProcessadas := guiasProcessadas + [d.numeroGuia];
      if !writeOk {
        return true;
      }
      allSqlInserts := allSqlInserts + [sqlContent];
      return false;
    }

    /**
     * `getUniqueGuias`, lines 335-346: each guide once, in whatever order
     * the map yields them.
     */
    method GetUniqueGuias() returns (result: seq<string>)
      ensures Distinct(result)
      ensures forall g :: g in result <==> g in guiasProcessadas
      ensures |result| == |Seen(guiasProcessadas)|
    {
      var unique: set<string> := {};
      var i := 0;
      while i < |guiasProcessadas|
        invariant 0 <= i <= |guiasProcessadas|
        invariant unique == Seen(guiasProcessadas[..i])
      {
        assert guiasProcessadas[..i + 1] == guiasProcessadas[..i] + [guiasProcessadas[i]];
        unique := unique + {guiasProcessadas[i]};
        i := i + 1;
      }
      assert guiasProcessadas[..i] == guiasProcessadas;
      var rest := unique;
      result := [];
      while rest != {}
        invariant rest <= unique
        invariant Distinct(result)
        invariant forall g :: g in result <==> g in unique && g !in rest
        invariant |result| + |rest| == |unique|
        decreases |rest|
      {
        var g :| g in rest;
        result := result + [g];
        rest := rest - {g};
      }
    }
  }
}
