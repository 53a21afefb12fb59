/** optim_main.py: the streaming version.  A generator yields the rows one at
    a time; the writer pulls them in blocks of `CHUNK` and writes each block
    to the CSV file; then, unless the database URL is unset or empty, or
    names no database, the reader re-reads the file and inserts it in
    batches of `CHUNK` rows. */
module OptimMain {
  import opened Records
  import opened Csv
  import opened Batching
  import opened Ingest

  const N_ROWS: int := 100_000
  const CHUNK: nat := 5_000
  const NULL_PROB: real := 0.1

  /** The generator object `generar_filas(fake, n, null_prob)` returns: it
      builds row i only when it is asked for the i-th time, and once the
      `n` rows are out every further request gets the sentinel. */
  class RowGenerator {
    const stream: nat -> Sample
    const n: int
    const nullProb: real
    var produced: nat

    /** Every row the generator yields, in order. */
    ghost function Rows(): seq<Record>
    {
      GenerateRows(stream, n, nullProb)
    }

    ghost predicate Valid()
      reads this
    {
      produced <= |Rows()|
    }

    constructor (stream: nat -> Sample, n: int, nullProb: real)
      ensures Valid() && produced == 0
      ensures this.stream == stream && this.n == n && this.nullProb == nullProb
    {
      this.stream := stream;
      this.n := n;
      this.nullProb := nullProb;
      produced := 0;
    }

    /** `next(gen, None)`. */
    method Next() returns (r: Option<Record>)
      requires Valid()
      modifies this
      ensures Valid()
      ensures old(produced) < |Rows()| ==> r == Some(Rows()[old(produced)]) && produced == old(produced) + 1
      ensures old(produced) == |Rows()| ==> r == None && produced == old(produced)
    {
      if produced < n {
        r := Some(BuildRow(stream(produced), nullProb));
        produced := produced + 1;
      } else {
        r := None;
      }
    }
  }

  /** `[r for r in bloque if r is not None]`. */
  function Present<T>(pulled: seq<Option<T>>): (kept: seq<T>)
    ensures |kept| <= |pulled|
    ensures forall i :: 0 <= i < |kept| ==> Some(kept[i]) in pulled
    ensures forall k :: 0 <= k < |pulled| && pulled[k].Some? ==> pulled[k].value in kept
  {
    if pulled == [] then []
    else Present(pulled[..|pulled| - 1]) + (if pulled[|pulled| - 1].Some? then [pulled[|pulled| - 1].value] else [])
  }

  /** One pull of the block comprehension: a row the generator yields
      extends the block by that row, the sentinel leaves it as it is. */
  lemma PullStep<T>(rows: seq<T>, start: nat, before: nat, after: nat, pulled: seq<Option<T>>, next: Option<T>)
    requires start <= before <= |rows| && Present(pulled) == rows[start..before]
    requires before < |rows| ==> next == Some(rows[before]) && after == before + 1
    requires before == |rows| ==> next == None && after == before
    ensures Present(pulled + [next]) == rows[start..after]
  {
    assert (pulled + [next])[..|pulled|] == pulled;
    if before < |rows| {
      assert rows[start..after] == rows[start..before] + [rows[before]];
    }
  }

  /** `[next(gen, None) for _ in range(chunk)]` filtered of the sentinel:
      the next `chunk` rows, fewer once the generator runs out. */
  method PullBlock(gen: RowGenerator, chunk: nat) returns (bloque: seq<Record>)
    requires gen.Valid()
    modifies gen
    ensures gen.Valid() && old(gen.produced) <= gen.produced
    ensures gen.produced == if old(gen.produced) + chunk <= |gen.Rows()| then old(gen.produced) + chunk else |gen.Rows()|
    ensures bloque == gen.Rows()[old(gen.produced)..gen.produced]
  {
    ghost var rows, start := gen.Rows(), gen.produced;
    var pulled: seq<Option<Record>> := [];
    for k := 0 to chunk
      invariant gen.Valid() && start <= gen.produced
      invariant gen.produced == if start + k <= |rows| then start + k else |rows|
      invariant Present(pulled) == rows[start..gen.produced]
    {
      ghost var before := gen.produced;
      var next := gen.Next();
      PullStep(rows, start, before, gen.produced, pulled, next);
      pulled := pulled + [next];
    }
    bloque := Present(pulled);
  }

  /** The writer loop (optim_main.py:61-70): the header once, then blocks of
      up to `chunk` rows pulled from the generator, until a pull gives no row.
      For a positive `chunk` the blocks are the batches of the generated rows
      and the generator ends exhausted.  For `chunk` 0 the first pull calls
      `next` no time and is empty, so the loop ends at once: no block, the
      generator untouched.  Either way the file is the header followed by the
      rows of the blocks, in order. */
  method WriteChunked(gen: RowGenerator, chunk: nat) returns (file: seq<seq<string>>, blocks: seq<seq<Record>>)
    requires gen.Valid() && gen.produced == 0
    modifies gen
    ensures gen.Valid()
    ensures blocks == if chunk == 0 then [] else Batches(gen.Rows(), chunk)
    ensures file == WrittenFile(Flatten(blocks))
    ensures chunk > 0 ==> gen.produced == |gen.Rows()|
    ensures chunk == 0 ==> gen.produced == old(gen.produced)
  {
    ghost var rows := gen.Rows();
    file := [FieldNames];
    blocks := [];
    while true
      invariant gen.Valid()
      invariant chunk > 0 ==> blocks == Batches(rows[..gen.produced], chunk)
      invariant chunk > 0 ==> Pending(rows[..gen.produced], chunk) == [] || gen.produced == |rows|
      invariant chunk == 0 ==> blocks == [] && gen.produced == 0
      invariant file == WrittenFile(Flatten(blocks))
      decreases |rows| - gen.produced
    {
      ghost var start := gen.produced;
      var bloque := PullBlock(gen, chunk);
      if bloque == [] {
        break;
      }
      WriteStep(rows, start, gen.produced, bloque, blocks, chunk);
      file := file + Rendered(bloque);
      blocks := blocks + [bloque];
    }
    if chunk > 0 {
      assert rows[..gen.produced] == rows;
    }
  }

  /** One pass of the writer loop: a block of 1 to `chunk` rows pulled after
      a whole number of full blocks is one more batch, and writing it extends
      the file by its rows. */
  lemma WriteStep(rows: seq<Record>, start: nat, end: nat, bloque: seq<Record>, blocks: seq<seq<Record>>, chunk: nat)
    requires start < end <= |rows| && end - start <= chunk && bloque == rows[start..end]
    requires blocks == Batches(rows[..start], chunk) && Pending(rows[..start], chunk) == []
    ensures Batches(rows[..end], chunk) == blocks + [bloque]
    ensures Pending(rows[..end], chunk) == [] <==> end - start == chunk
    ensures WrittenFile(Flatten(blocks + [bloque])) == WrittenFile(Flatten(blocks)) + Rendered(bloque)
  {
    assert rows[..end] == rows[..start] + bloque;
    AppendBlock(rows[..start], bloque, chunk);
    WriteBlock(blocks, bloque);
  }

  /** `writer.writerows(bloque)` extends the file by the block's rows. */
  lemma WriteBlock(blocks: seq<seq<Record>>, bloque: seq<Record>)
    ensures WrittenFile(Flatten(blocks + [bloque])) == WrittenFile(Flatten(blocks)) + Rendered(bloque)
  {
    FlattenAppend(blocks, [bloque]);
    FlattenSingle(bloque);
    var done := Flatten(blocks);
    RenderedAppend(done, bloque);
    assert WrittenFile(done + bloque) == [FieldNames] + (Rendered(done) + Rendered(bloque));
  }

  /** Step 1 of `main()`: generate the rows and write the CSV file in blocks
      of `CHUNK`.  The file holds the header and every generated row, in
      order. */
  method GenerateAndWrite(stream: nat -> Sample) returns (file: seq<seq<string>>)
    ensures file == WrittenFile(GenerateRows(stream, N_ROWS, NULL_PROB))
  {
    var gen := new RowGenerator(stream, N_ROWS, NULL_PROB);
    ghost var rows := gen.Rows();
    var blocks;
    file, blocks := WriteChunked(gen, CHUNK);
    BatchSizeInvariance(rows, CHUNK);
  }

  /** Step 3 of `main()`: re-read the file just written and insert it in
      batches of `CHUNK`.  The file never raises `KeyError`. */
  method ReadAndInsert(server: Server, file: seq<seq<string>>, ghost rows: seq<Record>)
    requires file == WrittenFile(rows)
    modifies server
    ensures server.databases == old(server.databases)
    ensures server.inserts == old(server.inserts) + Batches(Reloaded(rows), CHUNK)
  {
    NormaliseWrittenFile(rows);
    var err := IngestChunked(server, file, CHUNK);
  }

  /** `main()` of optim_main.py: write the CSV file in blocks; then, when a
      database URL is configured, ensure the database and ingest the file in
      batches.  `databaseOf` is the database name `make_url` finds in a URL.
      When the URL names no database, `ensure_database` returns early and the
      `CREATE TABLE` that follows has no database to go to: MySQL rejects it
      and the program stops there, before any insert (`ingested` is false). */
  method OptimRun(stream: nat -> Sample, databaseUrl: Option<string>, databaseOf: string -> Option<string>, server: Server)
    returns (file: seq<seq<string>>, ingested: bool)
    modifies server
    ensures file == WrittenFile(GenerateRows(stream, N_ROWS, NULL_PROB))
    ensures ingested <==> !Falsy(databaseUrl) && !Falsy(databaseOf(databaseUrl.value))
    ensures Falsy(databaseUrl) ==> server.databases == old(server.databases)
    ensures !Falsy(databaseUrl) ==> server.databases == Ensured(old(server.databases), databaseOf(databaseUrl.value))
    ensures !ingested ==> server.inserts == old(server.inserts)
    ensures ingested ==>
      server.inserts == old(server.inserts) + Batches(Reloaded(GenerateRows(stream, N_ROWS, NULL_PROB)), CHUNK)
  {
    ghost var rows := GenerateRows(stream, N_ROWS, NULL_PROB);
    file := GenerateAndWrite(stream);
    if Falsy(databaseUrl) {
      return file, false;
    }
    var database := databaseOf(databaseUrl.value);
    EnsureDatabase(server, database);
    if Falsy(database) {
      return file, false;
    }
    ReadAndInsert(server, file, rows);
    ingested := true;
  }
}
