/**
 * The CSV loader: each parsed row loses its `Index` entry and is buffered; when the file ends
 * the buffer is split into batches of at most 500 rows, each batch goes to one `batchInsert`,
 * and the buffer is emptied.
 */
module InsertData {
  import opened Seqs

  const BatchSize: nat := 500

  /** A parsed CSV row as its `Object.entries`: (header, value) pairs in header order. */
  type Row = seq<(string, string)>

  predicate IsKept(entry: (string, string))
  {
    entry.0 != "Index"
  }

  /** The row without its entries keyed exactly `Index`. */
  function FilterRow(row: Row): (r: Row)
    ensures |r| <= |row|
  {
    Filter(IsKept, row)
  }

  /** Exactly the entries not keyed `Index` survive, each as often as in the row. */
  lemma FilterRowEntries(row: Row)
    ensures forall e :: e in FilterRow(row) <==> e in row && e.0 != "Index"
    ensures forall e :: multiset(FilterRow(row))[e] == if e.0 == "Index" then 0 else multiset(row)[e]
  {
    FilterMembers(IsKept, row);
  }

  /** Reference batching: consecutive slices of `BatchSize` rows, the last one possibly shorter. */
  function Chunk<T>(rows: seq<T>): (r: seq<seq<T>>)
    ensures |r| >= 1
    decreases |rows|
  {
    if |rows| <= BatchSize then [rows] else [rows[..BatchSize]] + Chunk(rows[BatchSize..])
  }

  /** The batches hold exactly the rows, in order. */
  lemma {:induction false} ChunkFlatten<T>(rows: seq<T>)
    ensures Flatten(Chunk(rows)) == rows
    decreases |rows|
  {
    var c := Chunk(rows);
    if |rows| <= BatchSize {
      assert c[1..] == [];
    } else {
      assert c[0] == rows[..BatchSize] && c[1..] == Chunk(rows[BatchSize..]);
      ChunkFlatten(rows[BatchSize..]);
      assert rows == rows[..BatchSize] + rows[BatchSize..];
    }
  }

  /**
   * Shape of the batching: never empty; no batch above `BatchSize`; every batch but the last is
   * full; no rows give the single empty batch, otherwise every batch is non-empty and there are
   * `ceil(|rows| / BatchSize)` of them.
   */
  lemma {:induction false} ChunkShape<T>(rows: seq<T>)
    ensures |Chunk(rows)| >= 1
    ensures forall i :: 0 <= i < |Chunk(rows)| ==> |Chunk(rows)[i]| <= BatchSize
    ensures forall i :: 0 <= i < |Chunk(rows)| - 1 ==> |Chunk(rows)[i]| == BatchSize
    ensures rows == [] ==> Chunk(rows) == [[]]
    ensures rows != [] ==> forall i :: 0 <= i < |Chunk(rows)| ==> Chunk(rows)[i] != []
    ensures rows != [] ==> |Chunk(rows)| == (|rows| + BatchSize - 1) / BatchSize
    decreases |rows|
  {
    if |rows| > BatchSize {
      var rest := rows[BatchSize..];
      ChunkShape(rest);
      var c := Chunk(rows);
      assert c == [rows[..BatchSize]] + Chunk(rest);
      assert forall i :: 1 <= i < |c| ==> c[i] == Chunk(rest)[i - 1];
    }
  }

  /** One step of the `reduce`: append to the last batch while it has room, else open a new one. */
  function AddToBatches<T>(batches: seq<seq<T>>, row: T): (r: seq<seq<T>>)
    requires |batches| >= 1
    ensures Flatten(r) == Flatten(batches) + [row]
    ensures |r| == |batches| <==> |batches[|batches| - 1]| < BatchSize
  {
    var last := |batches| - 1;
    FlattenConcat(batches[..last], [batches[last]]);
    assert batches[..last] + [batches[last]] == batches;
    if |batches[last]| < BatchSize then
      FlattenConcat(batches[..last], [batches[last] + [row]]);
      assert batches[..last] + [batches[last] + [row]] == batches[last := batches[last] + [row]];
      batches[last := batches[last] + [row]]
    else
      FlattenConcat(batches, [[row]]);
      batches + [[row]]
  }

  /** The reduce step extends the reference batching by one row. */
  lemma {:induction false} ChunkSnoc<T>(rows: seq<T>, row: T)
    ensures |Chunk(rows)| >= 1
    ensures Chunk(rows + [row]) == AddToBatches(Chunk(rows), row)
    decreases |rows|
  {
    if |rows| <= BatchSize {
      if |rows| == BatchSize {
        assert (rows + [row])[..BatchSize] == rows;
        assert (rows + [row])[BatchSize..] == [row];
      }
    } else {
      var rest := rows[BatchSize..];
      ChunkSnoc(rest, row);
      assert (rows + [row])[..BatchSize] == rows[..BatchSize];
      assert (rows + [row])[BatchSize..] == rest + [row];
      var c := Chunk(rest);
      var last := |c| - 1;
      if |c[last]| < BatchSize {
        assert [rows[..BatchSize]] + c[last := c[last] + [row]]
            == ([rows[..BatchSize]] + c)[last + 1 := c[last] + [row]];
      } else {
        assert [rows[..BatchSize]] + (c + [[row]]) == ([rows[..BatchSize]] + c) + [[row]];
      }
    }
  }

  /** `rows.reduce(..., [[]])`, the last batch extended in place. */
  method SplitBatches<T>(rows: seq<T>) returns (batches: seq<seq<T>>)
    ensures batches == Chunk(rows)
  {
    batches := [[]];
    for i := 0 to |rows|
      invariant batches == Chunk(rows[..i])
    {
      var row := rows[i];
      ChunkSnoc(rows[..i], row);
      assert rows[..i + 1] == rows[..i] + [row];
      var last := |batches| - 1;
      var lastBatch := batches[last];
      if |lastBatch| < BatchSize {
        batches := batches[last := lastBatch + [row]];
      } else {
        batches := batches + [[row]];
      }
    }
    assert rows[..|rows|] == rows;
  }

  /** One `db.batchInsert(tableName, batch)`. */
  datatype BatchInsertCall = BatchInsertCall(tableName: string, batch: seq<Row>)

  /**
   * The calls `insertBatch` makes for these batches when `accepts` says which calls the database
   * completes: one per batch in order, up to and including the first one that throws.
   */
  function Attempts(tableName: string, batches: seq<seq<Row>>, accepts: BatchInsertCall -> bool): (r: seq<BatchInsertCall>)
    ensures |r| <= |batches|
  {
    if batches == [] then []
    else
      var call := BatchInsertCall(tableName, batches[0]);
      if accepts(call) then [call] + Attempts(tableName, batches[1..], accepts) else [call]
  }

  /**
   * The attempted calls are the batches' calls in order; all but the last were completed, and
   * the calls stop short of the batches only at a call that threw.
   */
  lemma {:induction false} AttemptsShape(tableName: string, batches: seq<seq<Row>>, accepts: BatchInsertCall -> bool)
    ensures var r := Attempts(tableName, batches, accepts);
            && (forall i :: 0 <= i < |r| ==> r[i] == BatchInsertCall(tableName, batches[i]))
            && (forall i :: 0 <= i < |r| - 1 ==> accepts(r[i]))
            && (|r| < |batches| ==> r != [] && !accepts(r[|r| - 1]))
            && (batches != [] ==> r != [])
  {
    if batches != [] {
      AttemptsShape(tableName, batches[1..], accepts);
    }
  }

  function RowsOf(calls: seq<BatchInsertCall>): seq<seq<Row>>
  {
    seq(|calls|, i requires 0 <= i < |calls| => calls[i].batch)
  }

  /** When the database completes every call, every row reaches it once, in order, in full batches. */
  lemma AllAccepted(tableName: string, rows: seq<Row>, accepts: BatchInsertCall -> bool)
    requires forall b :: accepts(BatchInsertCall(tableName, b))
    ensures Attempts(tableName, Chunk(rows), accepts) ==
            seq(|Chunk(rows)|, i requires 0 <= i < |Chunk(rows)| => BatchInsertCall(tableName, Chunk(rows)[i]))
    ensures Flatten(RowsOf(Attempts(tableName, Chunk(rows), accepts))) == rows
  {
    var calls := Attempts(tableName, Chunk(rows), accepts);
    AttemptsShape(tableName, Chunk(rows), accepts);
    assert |calls| == |Chunk(rows)|;
    assert RowsOf(calls) == Chunk(rows);
    ChunkFlatten(rows);
  }

  /** The two CSV files; the loader creates the customers table's rows first. */
  datatype CsvFile = CustomersCsv | OrganizationsCsv

  /** What the CSV parser delivers: the rows it emits, then `end`, or its `error` event after them. */
  datatype CsvStream = CsvStream(rows: seq<Row>, readError: bool)

  predicate NoIndexEntries(rows: seq<Row>)
  {
    forall r, e :: r in rows && e in r ==> e.0 != "Index"
  }

  /** The state of one `insertData` run. */
  class Loader {
    var customerRows: seq<Row>
    var organizationsRows: seq<Row>
    var calls: seq<BatchInsertCall>
    var destroyed: bool

    /** No buffered row still carries an `Index` entry. */
    ghost predicate Valid()
      reads this
    {
      NoIndexEntries(customerRows) && NoIndexEntries(organizationsRows)
    }

    constructor()
      ensures Valid()
      ensures customerRows == [] && organizationsRows == [] && calls == [] && !destroyed
    {
      customerRows := [];
      organizationsRows := [];
      calls := [];
      destroyed := false;
    }

    /** The `data` handler: drop `Index` and buffer the row for its file. */
    method OnData(file: CsvFile, row: Row)
      requires Valid()
      modifies this
      ensures Valid()
      ensures file == CustomersCsv ==>
                customerRows == old(customerRows) + [FilterRow(row)] && organizationsRows == old(organizationsRows)
      ensures file == OrganizationsCsv ==>
                organizationsRows == old(organizationsRows) + [FilterRow(row)] && customerRows == old(customerRows)
      ensures calls == old(calls) && destroyed == old(destroyed)
    {
      var filteredRow := FilterRow(row);
      FilterRowEntries(row);
      if file == CustomersCsv {
        customerRows := customerRows + [filteredRow];
      } else {
        organizationsRows := organizationsRows + [filteredRow];
      }
    }

    /** `insertBatch`: batch the rows and insert batch by batch; a throwing call ends it. */
    method InsertBatch(tableName: string, rows: seq<Row>, accepts: BatchInsertCall -> bool)
      modifies this
      ensures calls == old(calls) + Attempts(tableName, Chunk(rows), accepts)
      ensures customerRows == old(customerRows) && organizationsRows == old(organizationsRows)
      ensures destroyed == old(destroyed)
    {
      var batches := SplitBatches(rows);
      ghost var attempts := Attempts(tableName, batches, accepts);
      var i := 0;
      var failed := false;
      while i < |batches| && !failed
        invariant 0 <= i <= |batches|
        invariant !failed ==> forall j :: 0 <= j < i ==> accepts(BatchInsertCall(tableName, batches[j]))
        invariant !failed ==> i <= |attempts| && calls == old(calls) + attempts[..i]
        invariant failed ==> calls == old(calls) + attempts
        invariant customerRows == old(customerRows) && organizationsRows == old(organizationsRows)
        invariant destroyed == old(destroyed)
        decreases |batches| - i, !failed
      {
        var call := BatchInsertCall(tableName, batches[i]);
        AttemptsStep(tableName, batches, accepts, i);
        calls := calls + [call];
        if accepts(call) {
          i := i + 1;
        } else {
          failed := true;
        }
      }
      if !failed {
        AttemptsAll(tableName, batches, accepts);
        assert attempts[..i] == attempts;
      }
    }

    /** The `end` handler: insert the file's rows into its table, then empty its buffer. */
    method OnEnd(file: CsvFile, accepts: BatchInsertCall -> bool)
      requires Valid()
      modifies this
      ensures Valid()
      ensures file == CustomersCsv ==>
                && calls == old(calls) + Attempts("customers", Chunk(old(customerRows)), accepts)
                && customerRows == [] && organizationsRows == old(organizationsRows)
                && destroyed == old(destroyed)
      ensures file == OrganizationsCsv ==>
                && calls == old(calls) + Attempts("organizations", Chunk(old(organizationsRows)), accepts)
                && organizationsRows == [] && customerRows == old(customerRows)
                && destroyed
    {
      if file == CustomersCsv {
        InsertBatch("customers", customerRows, accepts);
        customerRows := [];
      } else {
        InsertBatch("organizations", organizationsRows, accepts);
        organizationsRows := [];
        destroyed := true;
      }
    }

    /** The `error` handler; only the organizations reader closes the connection. */
    method OnError(file: CsvFile)
      requires Valid()
      modifies this
      ensures Valid()
      ensures customerRows == old(customerRows) && organizationsRows == old(organizationsRows)
      ensures calls == old(calls)
      ensures destroyed == (old(destroyed) || file == OrganizationsCsv)
    {
      if file == OrganizationsCsv {
        destroyed := true;
      }
    }

    /** Feed one file's stream to the handlers; true when the stream ends normally. */
    method ReadFile(file: CsvFile, stream: CsvStream, accepts: BatchInsertCall -> bool) returns (resolved: bool)
      requires Valid()
      requires file == CustomersCsv ==> customerRows == []
      requires file == OrganizationsCsv ==> organizationsRows == []
      modifies this
      ensures Valid()
      ensures resolved == !stream.readError
      ensures file == CustomersCsv ==>
                && organizationsRows == old(organizationsRows)
                && customerRows == (if stream.readError then FilterRows(stream.rows) else [])
                && calls == old(calls) + (if stream.readError then [] else Attempts("customers", Chunk(FilterRows(stream.rows)), accepts))
                && destroyed == old(destroyed)
      ensures file == OrganizationsCsv ==>
                && customerRows == old(customerRows)
                && organizationsRows == (if stream.readError then FilterRows(stream.rows) else [])
                && calls == old(calls) + (if stream.readError then [] else Attempts("organizations", Chunk(FilterRows(stream.rows)), accepts))
                && destroyed
    {
      for i := 0 to |stream.rows|
        invariant Valid()
        invariant file == CustomersCsv ==>
                    customerRows == FilterRows(stream.rows[..i]) && organizationsRows == old(organizationsRows)
        invariant file == OrganizationsCsv ==>
                    organizationsRows == FilterRows(stream.rows[..i]) && customerRows == old(customerRows)
        invariant calls == old(calls) && destroyed == old(destroyed)
      {
        assert stream.rows[..i + 1] == stream.rows[..i] + [stream.rows[i]];
        OnData(file, stream.rows[i]);
      }
      assert stream.rows[..|stream.rows|] == stream.rows;
      if stream.readError {
        OnError(file);
        resolved := false;
      } else {
        OnEnd(file, accepts);
        resolved := true;
      }
    }
  }

  /** Every row with its `Index` entry dropped. */
  function FilterRows(rows: seq<Row>): (r: seq<Row>)
    ensures |r| == |rows|
  {
    seq(|rows|, i requires 0 <= i < |rows| => FilterRow(rows[i]))
  }

  /** Buffering row by row keeps the rows in order, and each one loses exactly its `Index` entries. */
  lemma FilterRowsEntries(rows: seq<Row>, row: Row, i: nat)
    requires i < |rows|
    ensures FilterRows(rows + [row]) == FilterRows(rows) + [FilterRow(row)]
    ensures forall e :: e in FilterRows(rows)[i] <==> e in rows[i] && e.0 != "Index"
  {
    FilterRowEntries(rows[i]);
  }

  /** One pass of the insertion loop, stated against `Attempts`. */
  lemma AttemptsStep(tableName: string, batches: seq<seq<Row>>, accepts: BatchInsertCall -> bool, i: nat)
    requires i < |batches|
    requires forall j :: 0 <= j < i ==> accepts(BatchInsertCall(tableName, batches[j]))
    ensures |Attempts(tableName, batches, accepts)| > i
    ensures Attempts(tableName, batches, accepts)[..i + 1] ==
            Attempts(tableName, batches, accepts)[..i] + [BatchInsertCall(tableName, batches[i])]
    ensures !accepts(BatchInsertCall(tableName, batches[i])) ==> |Attempts(tableName, batches, accepts)| == i + 1
  {
    AttemptsPrefix(tableName, batches, accepts, i);
    AttemptsShape(tableName, batches, accepts);
  }

  lemma {:induction false} AttemptsPrefix(tableName: string, batches: seq<seq<Row>>, accepts: BatchInsertCall -> bool, i: nat)
    requires i < |batches|
    requires forall j :: 0 <= j < i ==> accepts(BatchInsertCall(tableName, batches[j]))
    ensures |Attempts(tableName, batches, accepts)| > i
    ensures !accepts(BatchInsertCall(tableName, batches[i])) ==> |Attempts(tableName, batches, accepts)| == i + 1
    decreases i
  {
    if i > 0 {
      assert accepts(BatchInsertCall(tableName, batches[0]));
      AttemptsPrefix(tableName, batches[1..], accepts, i - 1);
    }
  }

  lemma AttemptsAll(tableName: string, batches: seq<seq<Row>>, accepts: BatchInsertCall -> bool)
    requires forall j :: 0 <= j < |batches| ==> accepts(BatchInsertCall(tableName, batches[j]))
    ensures |Attempts(tableName, batches, accepts)| == |batches|
  {
    AttemptsShape(tableName, batches, accepts);
  }

  /**
   * `insertData`: the customers file first, then the organizations file. A read error rejects, so
   * nothing of the organizations file is read after a customers error; a failing `batchInsert` is
   * caught inside `insertBatch` and the run goes on.
   */
  method Load(customers: CsvStream, organizations: CsvStream, accepts: BatchInsertCall -> bool)
    returns (calls: seq<BatchInsertCall>, completed: bool)
    ensures completed <==> !customers.readError && !organizations.readError
    ensures customers.readError ==> calls == []
    ensures !customers.readError ==>
              calls == Attempts("customers", Chunk(FilterRows(customers.rows)), accepts)
                       + (if organizations.readError then []
                          else Attempts("organizations", Chunk(FilterRows(organizations.rows)), accepts))
  {
    var loader := new Loader();
    var resolved := loader.ReadFile(CustomersCsv, customers, accepts);
    if !resolved {
      return loader.calls, false;
    }
    ghost var first := Attempts("customers", Chunk(FilterRows(customers.rows)), accepts);
    assert loader.calls == first && loader.organizationsRows == [];
    resolved := loader.ReadFile(OrganizationsCsv, organizations, accepts);
    calls, completed := loader.calls, resolved;
  }
}
