/** The import as the service runs it: decisions collected row by row, then two passes of insertions, rolled back on
    failure. */
module ImportCommands {
  import opened Wrappers
  import opened ImportParser
  import opened ImportService

  /** Decide about every row against the data as it is. */
  method AnalyzeFile(data: Data, rows: seq<ImportRow>) returns (decisions: seq<Decision>, errors: seq<RowConflict>)
    ensures Analysis(decisions, errors) == Analyze(data, rows)
  {
    var known := data.catalog.entities.Keys;
    for n := 0 to |rows|
      invariant known == KnownKeys(data.catalog, rows, n)
    {
      if IsMaster(rows[n]) {
        known := known + {KeyOf(rows[n])};
      }
    }
    decisions, errors := [], [];
    for n := 0 to |rows|
      invariant Analysis(decisions, errors) == AnalyzeRows(data, known, rows, n)
    {
      var verdict := Judge(data, known, rows[n]);
      if verdict.Failure? {
        errors := errors + [RowConflict(rows[n].rowNumber, verdict.error)];
      } else {
        decisions := decisions + [Decision(rows[n], verdict.value)];
      }
    }
  }

  method CountDecisions(decisions: seq<Decision>) returns (created: nat)
    ensures created == CountCreated(decisions)
  {
    created := 0;
    for n := 0 to |decisions|
      invariant created == CountCreated(decisions[..n])
    {
      assert decisions[..n + 1][..n] == decisions[..n];
      if decisions[n].created {
        created := created + 1;
      }
    }
    assert decisions[..|decisions|] == decisions;
  }

  class Importer {
    var data: Data
    var batches: map<string, Batch>

    constructor (data: Data)
      ensures Current() == Site(data, map[])
    {
      this.data := data;
      batches := map[];
    }

    function Current(): Site
      reads this
    {
      Site(data, batches)
    }

    /** First customers, suppliers, warehouses and products, then the prices and stock that refer to them. */
    method InsertRows(decisions: seq<Decision>) returns (ok: bool)
      modifies this`data
      ensures ok <==> CreateAll(old(data), decisions).Some?
      ensures ok ==> data == CreateAll(old(data), decisions).value
    {
      for n := 0 to |decisions|
        invariant CreateMasters(old(data).catalog, decisions, n) == Some(data.catalog) && data.db == old(data).db
      {
        var row, key := decisions[n].row, KeyOf(decisions[n].row);
        if decisions[n].created && IsMaster(row) {
          if key in data.catalog.entities || !Storable(row) {
            CreationStops(old(data).catalog, decisions, n + 1);
            return false;
          }
          var id := data.catalog.next;
          data := data.(catalog := data.catalog.(entities := data.catalog.entities[key := EntityOf(row, id)],
                                                 next := id + 1));
        }
      }
      ghost var middle := data;
      for n := 0 to |decisions|
        invariant CreateDetails(middle, decisions, n) == Some(data)
      {
        var created := CreateDetail(data, decisions[n]);
        if created.None? {
          DetailsStop(middle, decisions, n + 1);
          return false;
        }
        data := created.value;
      }
      return true;
    }

    /** One transaction; what a failing one has inserted is rolled back. */
    method ImportParsed(content: string, rows: seq<ImportRow>) returns (answer: Answer)
      modifies this
      ensures (Current(), answer) == ImportRows(old(Current()), content, rows)
      ensures !answer.Imported? ==> Current() == old(Current())
    {
      if content in batches { return Imported(batches[content], true); }
      var begin := data;
      var decisions, errors := AnalyzeFile(data, rows);
      if errors != [] { return Refused(Invalid(errors)); }
      var ok := InsertRows(decisions);
      if !ok {
        data := begin;
        return Refused(Violation);
      }
      var created := CountDecisions(decisions);
      var batch := Batch(|decisions|, created, |decisions| - created);
      batches := batches[content := batch];
      return Imported(batch, false);
    }

    method Import(upper: string -> string, content: string) returns (answer: Answer)
      modifies this
      ensures (Current(), answer) == ImportFile(upper, old(Current()), content)
    {
      var parsed := ParseInitialImport(upper, content, true);
      if parsed.Failure? { return BadFile(parsed.error); }
      if parsed.value.errors != [] { return BadRows(parsed.value.errors); }
      answer := ImportParsed(content, parsed.value.rows);
    }
  }

  lemma {:induction false} CreationStops(catalog: Catalog, decisions: seq<Decision>, n: nat)
    requires n <= |decisions| && CreateMasters(catalog, decisions, n) == None
    ensures CreateMasters(catalog, decisions, |decisions|) == None
    decreases |decisions| - n
  {
    if n < |decisions| {
      CreationStops(catalog, decisions, n + 1);
    }
  }

  lemma {:induction false} DetailsStop(data: Data, decisions: seq<Decision>, n: nat)
    requires n <= |decisions| && CreateDetails(data, decisions, n) == None
    ensures CreateDetails(data, decisions, |decisions|) == None
    decreases |decisions| - n
  {
    if n < |decisions| {
      DetailsStop(data, decisions, n + 1);
    }
  }
}
