/** main.py: the unbatched predecessor.  It builds all rows in one list,
    writes them to the CSV file with one `writerows` call and, unless the
    database URL is unset or empty, or names no database, inserts the list
    itself (not the file) with one `conn.execute` call. */
module BaselineMain {
  import opened Records
  import opened Csv
  import opened Batching
  import opened Ingest

  const ROWS: nat := 1000
  const NULL_PROB: real := 0.1

  /** The list comprehension of main.py: one row per iteration of `range(1000)`. */
  function BaselineRows(stream: nat -> Sample, nullProb: real): (rows: seq<Record>)
    ensures |rows| == 1000
    ensures forall i :: 0 <= i < |rows| ==> '\n' !in rows[i].direccion
  {
    var rows := seq(ROWS, i requires 0 <= i < ROWS => BuildRow(stream(i), nullProb));
    assert forall i :: 0 <= i < ROWS ==> rows[i] == BuildRow(stream(i), nullProb);
    rows
  }

  /** The list main.py builds holds exactly the rows the generator of
      optim_main.py yields for the same inputs and 1000 rows. */
  lemma SameRowsAsGenerator(stream: nat -> Sample, nullProb: real)
    ensures BaselineRows(stream, nullProb) == GenerateRows(stream, ROWS, nullProb)
  {
    var a, b := BaselineRows(stream, nullProb), GenerateRows(stream, ROWS, nullProb);
    assert |a| == |b|;
    forall i | 0 <= i < ROWS ensures a[i] == b[i] {
    }
  }

  /** `main()` of main.py: write the header and all rows at once; then, when a
      database URL is configured, ensure the database and insert every row
      with a single call.  `databaseOf` is the database name `make_url`
      finds in a URL; when there is none, the `CREATE TABLE` fails as in
      optim_main.py and nothing is inserted (`ingested` is false). */
  method BaselineRun(stream: nat -> Sample, databaseUrl: Option<string>, databaseOf: string -> Option<string>, server: Server)
    returns (file: seq<seq<string>>, ingested: bool)
    modifies server
    ensures file == WrittenFile(BaselineRows(stream, NULL_PROB))
    ensures ingested <==> !Falsy(databaseUrl) && !Falsy(databaseOf(databaseUrl.value))
    ensures Falsy(databaseUrl) ==> server.databases == old(server.databases)
    ensures !Falsy(databaseUrl) ==> server.databases == Ensured(old(server.databases), databaseOf(databaseUrl.value))
    ensures !ingested ==> server.inserts == old(server.inserts)
    ensures ingested ==> server.inserts == old(server.inserts) + [Bindings(BaselineRows(stream, NULL_PROB))]
  {
    var rows := BaselineRows(stream, NULL_PROB);
    file := [FieldNames] + Rendered(rows);
    if Falsy(databaseUrl) {
      return file, false;
    }
    var database := databaseOf(databaseUrl.value);
    EnsureDatabase(server, database);
    if Falsy(database) {
      return file, false;
    }
    server.ExecuteInsert(Bindings(rows));
    ingested := true;
  }

  /** Batch-size invariance against the unbatched program: run with the same
      inputs and main.py's 1000 rows, the file the streaming writer produces
      for any positive block size (`OptimMain.WriteChunked`) is the file
      main.py writes, and the batches the reader inserts, whatever their size,
      put together are main.py's single batch, each row changed only by the
      round trip through the CSV file. */
  lemma StreamingMatchesSingleShot(stream: nat -> Sample, chunk: nat)
    ensures WrittenFile(GenerateRows(stream, ROWS, NULL_PROB)) == WrittenFile(BaselineRows(stream, NULL_PROB))
    ensures var single := Flatten([Bindings(BaselineRows(stream, NULL_PROB))]);
      Flatten(Batches(Reloaded(GenerateRows(stream, ROWS, NULL_PROB)), chunk))
        == seq(|single|, i requires 0 <= i < |single| => ViaCsv(single[i]))
  {
    var rows := BaselineRows(stream, NULL_PROB);
    SameRowsAsGenerator(stream, NULL_PROB);
    ReloadedBatchesFlatten(rows, chunk);
  }

  lemma ReloadedBatchesFlatten(rows: seq<Record>, chunk: nat)
    ensures var single := Flatten([Bindings(rows)]);
      Flatten(Batches(Reloaded(rows), chunk)) == seq(|single|, i requires 0 <= i < |single| => ViaCsv(single[i]))
  {
    BatchSizeInvariance(Reloaded(rows), chunk);
    FlattenSingle(Bindings(rows));
  }
}
