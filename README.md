# Chunked CSV generation and ingestion, modelled in Dafny

The repository holds two Python scripts that produce synthetic personal records and load them into MySQL:

- `optim_main.py` is the streaming version.
  - A generator, `generar_filas`, yields one eight-field record per iteration.
  - A writer loop pulls the records in blocks of `CHUNK` (5000) and writes each block to `datos_falsos.csv`, after the header.
  - Unless `DATABASE_URL` is unset or empty, it ensures the database exists. Then, unless the URL names no database, it re-reads the file with `csv.DictReader`, normalises each row, and inserts the rows in batches of `CHUNK`: the accumulator is flushed as soon as it holds `CHUNK` rows, and once more at the end if it is not empty.
- `main.py` is its unbatched predecessor.
  - It builds all 1000 rows in one list comprehension.
  - It writes them with a single `writerows`.
  - It inserts the same list with a single `conn.execute`.

The project models both pipelines. Faker's outputs and the draws of `random.random()` for row i are an input, `stream(i): Sample`. The CSV file is a sequence of rows of cells. The database server is a class with its set of databases and the log of insert batches it has executed.

Modules:

- `Records` (records.dfy): the record type, the row built from one sample (`BuildRow`), `generar_filas` as `GenerateRows`, and the null-injection properties.
- `Batching` (batching.dfy): the in-loop flushes (`Flushed`), the remainder (`Pending`) and all batches (`Batches`) of a row sequence for a chunk size. It also proves their shape, count and concatenation.
- `Csv` (csv.dfy): the header, the cells `DictWriter` writes for a record, and the dictionaries `DictReader` yields for a file.
- `Ingest` (ingest.dfy):
  - the INSERT parameters and the row normaliser (including its `KeyError` path);
  - the CSV round trip of a row;
  - the `DATABASE_URL` guard;
  - the `Server` class and `ensure_database`;
  - the chunked reader/ingestor loop.
- `OptimMain` (optim_main.dfy):
  - the generator object, a class whose `produced` counter advances on each `next` while rows remain, and stays put once all are out;
  - the block pull;
  - the chunked writer loop;
  - `main()` of optim_main.py.
- `BaselineMain` (baseline_main.dfy): `main()` of main.py, and the comparison of the two programs.

Behaviours worth knowing:

- The two nullable fields do not round-trip alike. An absent `fecha_pago` is written as an empty cell and mapped back to NULL by `or None`. An absent `telefono` is also written as an empty cell, but it is copied back as the empty text. `PhoneNumberComesBackEmpty` and `PaymentDateRoundTrip` state this.
- The null test is a strict `>`. With `null_prob` at 1 or more every nullable field is absent. With `null_prob` 0 a field is absent exactly when its draw is 0.0.
- The chunk size is a parameter in the loops. With a chunk size of 0, the writer's first pull calls `next` no time and is empty. So only the header is written and the generator is left untouched. Reading that file back yields no row, so the reader issues no insert. (Given a file with rows, a reader with chunk size 0 would flush all of them once, after its loop.)
- When `DATABASE_URL` is set but names no database, `ensure_database` returns early. The `CREATE TABLE` that follows then has no database selected and fails, so no insert is issued. Both `main()` models end the run there, with `ingested` false.

## Model

| member | source | states |
|---|---|---|
| Records.ReplaceNewlines | optim_main.py:37 | the stored address holds no newline, and each newline adds one character (`"\n"` becomes `", "`) |
| Records.ReplaceNewlinesIsSplitJoin | optim_main.py:37 | the character-wise replacement equals Python's `replace`: split at newlines, join with `", "` |
| Records.ReplaceNewlinesKeepsSingleLine | optim_main.py:37 | an address without newlines is stored unchanged |
| Records.KeepIf | optim_main.py:38 | a nullable value is kept iff its draw is strictly greater than `null_prob`, and then unchanged |
| Records.BuildRow | optim_main.py:34-46 | one row: no newline in the address; `telefono` and `fecha_pago` present iff their own draw exceeds `null_prob`, then holding Faker's values |
| Records.GenerateRows | optim_main.py:31-46 | the generator yields max(n, 0) rows, one per iteration; row i is built from the i-th sample; no address holds a newline |
| Records.GeneratedNullables | optim_main.py:38-45 | `telefono` is present iff its own draw exceeds `null_prob`, and `fecha_pago` likewise with its draw; a present field holds Faker's value |
| Records.AllAbsentWhenNullProbAtLeastOne | optim_main.py:38-45 | with draws in [0, 1) and `null_prob` >= 1, every phone number and payment date is None |
| Records.AbsentWhenNullProbZero | optim_main.py:38-45 | with `null_prob` 0, a nullable field is None exactly when its draw is 0.0 (strict `>`) |
| Records.AbsentPhonesCount | optim_main.py:38 | the number of rows without a phone number equals the number of phone draws at or below `null_prob` |
| Batching.Flushed | optim_main.py:114-128 | the in-loop flushes: every one holds exactly `CHUNK` rows; none for a chunk size of 0 |
| Batching.Pending | optim_main.py:102-130 | what the accumulator holds after the loop: never more than the rows, and fewer than `CHUNK` rows for a positive chunk size |
| Batching.Batches | optim_main.py:114-143 | all flushed blocks: none is empty, none holds more than `CHUNK` rows |
| Batching.FlushedPendingSplit | optim_main.py:102-143 | the in-loop flushes followed by the remainder are the rows, in order |
| Batching.FlushedCount | optim_main.py:102-143 | the rows are the number of in-loop flushes times `CHUNK` plus the remainder |
| Batching.FlushedConcat | optim_main.py:103-128 | reading `a` then `b` flushes `a`'s blocks, then continues from `a`'s remainder |
| Batching.FlushedSnoc | optim_main.py:104-128 | appending one row flushes the accumulator exactly when it reaches `CHUNK` rows, and empties it |
| Batching.AppendBlock | optim_main.py:65-70 | after whole blocks, a block of 1 to `CHUNK` rows is one more batch; the accumulator is then empty iff the block was full |
| Batching.BatchesShape | optim_main.py:102-143 | no batch is empty or larger than `CHUNK`, all but the last hold exactly `CHUNK`, and together they are the rows in order |
| Batching.BatchesZero | optim_main.py:102-143 | with a chunk size of 0, the rows are flushed once, after the loop, if there are any |
| Batching.BatchSizeInvariance | optim_main.py:102-143 | whatever the chunk size, the batches concatenated are the rows |
| Batching.BatchCount | optim_main.py:114-143 | the number of insert calls is ceil(rows / `CHUNK`) |
| Csv.FieldNamesDistinct | optim_main.py:53-56 | the header has eight names and none repeats |
| Csv.Cells | optim_main.py:70 | a record is written as eight cells in header order; the `fecha_pago` cell is empty iff the date is absent; an absent phone number gives an empty cell |
| Csv.Rendered | optim_main.py:70 | one line per record, each with one cell per header name |
| Csv.WrittenFile | optim_main.py:62-63 | the header first, then one line of eight cells per record |
| Csv.RenderedAppend | optim_main.py:65-70 | successive `writerows` calls write their rows back to back |
| Csv.DictRow | optim_main.py:101-103 | a row read back is keyed by exactly the header names |
| Csv.DictRowAt | optim_main.py:101-103 | under a header without repeats, name j maps to cell j, or to None when the row is shorter |
| Csv.DataRows | optim_main.py:101-103 | at most one dictionary per line (blank lines are skipped), each keyed by exactly the header names |
| Csv.ReadDicts | optim_main.py:101-103 | an empty file yields nothing; otherwise fewer dictionaries than lines, each keyed by the first line's names |
| Csv.DataRowsNonBlank | optim_main.py:101-103 | without blank lines the reader yields one dictionary per line, in order |
| Csv.ReadWrittenFile | optim_main.py:100-103 | reading the written file yields one dictionary per record, in order |
| Csv.ReadCell | optim_main.py:104-112 | the value read under `FieldNames[j]` for a written record is its j-th cell |
| Ingest.OrNone | optim_main.py:112 | `v or None` is NULL iff `v` is None or the empty text, and otherwise the value itself |
| Ingest.Normalise | optim_main.py:104-113 | a row normalises iff it has all eight keys; otherwise `KeyError` names the first missing key in header order; seven fields are copied verbatim and `fecha_pago` goes through `or None` |
| Ingest.NormaliseAll | optim_main.py:103-113 | the rows normalised before the first `KeyError`, and its key |
| Ingest.NormaliseAllOk | optim_main.py:103-113 | when every row normalises, all of them are normalised and nothing is raised |
| Ingest.NormaliseAllFirstError | optim_main.py:103-113 | a `KeyError` at row i leaves exactly the rows before it normalised |
| Ingest.RecordBinding | main.py:67-70 | the parameters main.py binds for a record: NULL exactly for an absent `telefono` or `fecha_pago`, never for the other six |
| Ingest.Bindings | main.py:67-70 | one parameter row per record, NULL exactly where the record's nullable fields are absent |
| Ingest.NormaliseWrittenRow | optim_main.py:104-113 | a record written and read back normalises to main.py's parameters with dates as ISO text and an absent `telefono` as `''` |
| Ingest.PaymentDateRoundTrip | optim_main.py:112 | after the CSV round trip `fecha_pago` is NULL iff it was absent |
| Ingest.PhoneNumberComesBackEmpty | optim_main.py:108 | an absent phone number comes back as the empty text, not NULL |
| Ingest.NormaliseWrittenFile | optim_main.py:100-113 | the written file never raises `KeyError` and gives one parameter row per record, in order |
| Ingest.Falsy | optim_main.py:75 | Python's `not v` for an optional text: `None` or the empty text |
| Ingest.Ensured | optim_main.py:16-28 | a falsy database name leaves the databases as they are; any other is added, and nothing else |
| Ingest.EnsureIdempotent | optim_main.py:23-28 | ensuring the database twice is the same as once |
| Ingest.Server.constructor | optim_main.py:80 | a server with the given databases and no inserts yet |
| Ingest.Server.CreateDatabaseIfNotExists | optim_main.py:23-28 | the database is added to the server's set; nothing else changes |
| Ingest.Server.ExecuteInsert | optim_main.py:115-127 | one insert call appends its batch to the log; nothing else changes |
| Ingest.EnsureDatabase | optim_main.py:13-28 | no URL database name (None or empty) means no change; otherwise the database is created if absent |
| Ingest.Accumulate | optim_main.py:104-128 | one reader step keeps the insert log equal to the in-loop flushes, and the accumulator equal to the remainder |
| Ingest.IngestChunked | optim_main.py:100-143 | the insert log grows by the batches of the normalised rows; on `KeyError` it grows by the in-loop flushes before the bad row and the key is returned |
| OptimMain.RowGenerator.constructor | optim_main.py:59 | a fresh generator has yielded nothing |
| OptimMain.RowGenerator.Next | optim_main.py:66 | `next(gen, None)` gives the next row and advances, or the sentinel once all n rows are out |
| OptimMain.Present | optim_main.py:67 | the filter keeps every yielded row and nothing else, and is no longer than the pull |
| OptimMain.PullStep | optim_main.py:66-67 | one pull extends the filtered block by the yielded row, or leaves it as it is on the sentinel |
| OptimMain.PullBlock | optim_main.py:66-67 | a pull of `CHUNK` items, sentinel filtered out, is the next min(`CHUNK`, remaining) generated rows |
| OptimMain.WriteChunked | optim_main.py:61-70 | the writer loop ends with the generator exhausted; the blocks are the batches of the generated rows (none for chunk 0); the file is the header, then their rows in order |
| OptimMain.WriteStep | optim_main.py:65-70 | one writer pass adds one batch and extends the file by its rows |
| OptimMain.GenerateAndWrite | optim_main.py:58-70 | the file written in blocks of `CHUNK` is the header followed by every generated row in order |
| OptimMain.ReadAndInsert | optim_main.py:100-143 | re-reading the written file inserts the batches of size `CHUNK` of the reloaded rows |
| OptimMain.OptimRun | optim_main.py:49-145 | the file always holds the 100000 rows; with `DATABASE_URL` unset or empty the server is unchanged; otherwise the database is ensured; the batches of the reloaded rows are inserted exactly when the URL names a database, and nothing is inserted otherwise |
| BaselineMain.BaselineRows | main.py:26-35 | exactly 1000 rows, no address with a newline |
| BaselineMain.SameRowsAsGenerator | main.py:26-35 | main.py's comprehension builds the same 1000 rows the generator yields for the same inputs |
| BaselineMain.BaselineRun | main.py:23-70 | the file is the header then all rows; with `DATABASE_URL` unset or empty the server is unchanged; otherwise the database is ensured; one insert of all rows, in list order, is issued exactly when the URL names a database, and none otherwise |
| BaselineMain.StreamingMatchesSingleShot | main.py:38-41 | for main.py's 1000 rows the streaming writer writes the same file; its batches concatenated are main.py's single batch, each row changed only by the CSV round trip |
| BaselineMain.ReloadedBatchesFlatten | main.py:67-70 | the batches of the reloaded rows concatenated are the single batch with each row passed through the CSV round trip |

## Left out

- Faker and `random.random()` are inputs (`stream: nat -> Sample`), not modelled. Their value ranges and locale are not modelled, and neither are the dates' bounds.
- Faker's call order is not modelled. `fake.phone_number()` is called only when its draw keeps the phone number, and `fake.date_between(start_date='-1y', ...)` for `fecha_pago` only when its draw keeps the payment date. So in the real program the Faker values of later rows depend on earlier draws. Here the sample of row i is given whatever the draws.
- Python's `csv` module is not modelled. Three of its behaviours are assumptions:
  - `None` is written as an empty cell.
  - A `date` is written as its ISO text.
  - The file read back yields exactly the cells written.
  Quoting, escaping, UTF-8 encoding and `DictReader`'s `restkey` for over-long rows are not modelled.
- SQLAlchemy, MySQL and transactions are not modelled. The server is its set of databases plus the log of insert batches it has executed. `make_url` is the parameter `databaseOf`. How MySQL stores a bound `''` or ISO text in a `DATE` column is not modelled.
- Ingest.IngestChunked: on `KeyError` the log keeps the batches executed before the bad row. The rollback of `engine.begin()` that would undo them is not modelled.
- The `CREATE TABLE` statements are not modelled. In particular, main.py declares `telefono` `NOT NULL` while binding NULL for absent phone numbers; optim_main.py declares it `DEFAULT NULL`.
- `load_dotenv`, `os.getenv`, `print` and opening and closing the file are environment and I/O plumbing. The value of `DATABASE_URL` is a parameter.
- OptimMain.OptimRun and BaselineMain.BaselineRun: the exceptions `make_url` or the connection can raise are not modelled. For a URL without a database name, the failing `CREATE TABLE` is modelled only as the end of the run without inserts (`ingested` false), not as the exception it raises.
