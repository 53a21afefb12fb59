/** The database side of both programs: the parameters bound to one INSERT
    row, the normalisation of a CSV row (optim_main.py:104-113), the server
    state the programs change, `ensure_database`, and the chunked
    reader/ingestor loop (optim_main.py:100-143).

    SQLAlchemy and MySQL are not modelled: a server is the set of its
    databases and a log of the batches passed to `conn.execute`. */
module Ingest {
  import opened Records
  import opened Csv
  import opened Batching

  /** A value bound to a named parameter of the INSERT statement. */
  datatype Param = Text(text: string) | Day(date: Date) | Null

  /** The eight parameters of one inserted row, named as the columns. */
  datatype Binding = Binding(
    nombre: Param,
    email: Param,
    direccion: Param,
    telefono: Param,
    fechaNacimiento: Param,
    cedula: Param,
    fechaRegistro: Param,
    fechaPago: Param)

  /** The parameter bound under header name `FieldNames[j]`. */
  function FieldAt(b: Binding, j: nat): Param
    requires j < 8
  {
    match j
    case 0 => b.nombre
    case 1 => b.email
    case 2 => b.direccion
    case 3 => b.telefono
    case 4 => b.fechaNacimiento
    case 5 => b.cedula
    case 6 => b.fechaRegistro
    case _ => b.fechaPago
  }

  /** Either a value or the `KeyError` Python raises for a missing key. */
  datatype Result<T> = Ok(value: T) | KeyError(key: string)

  /** A cell value as a parameter: `None` binds NULL. */
  function AsParam(v: Option<string>): Param
  {
    match v
    case None => Null
    case Some(s) => Text(s)
  }

  /** `v or None`: the empty text is falsy, so it binds NULL too. */
  function OrNone(v: Option<string>): (p: Param)
    ensures p == Null <==> v == None || v == Some("")
    ensures p != Null ==> p == AsParam(v)
  {
    match v
    case None => Null
    case Some(s) => if s == "" then Null else Text(s)
  }

  /** The dictionary the reader appends for one CSV row.  The keys are looked
      up in header order, so a missing one raises `KeyError` for the first
      missing name.  `fecha_pago` maps the empty text back to NULL; every
      other field, `telefono` included, is copied as it is. */
  function Normalise(row: map<string, Option<string>>): (res: Result<Binding>)
    ensures res.Ok? <==> forall j :: 0 <= j < 8 ==> FieldNames[j] in row
    ensures res.KeyError? ==> res.key !in row
    ensures res.KeyError? ==> (exists j :: 0 <= j < 8 && FieldNames[j] == res.key &&
                                           forall i :: 0 <= i < j ==> FieldNames[i] in row)
    ensures res.Ok? ==> forall j :: 0 <= j < 7 ==> FieldAt(res.value, j) == AsParam(row[FieldNames[j]])
    ensures res.Ok? ==> FieldAt(res.value, 7) == OrNone(row[FieldNames[7]])
  {
    // FieldNames[0] is "nombre", ..., FieldNames[7] is "fecha_pago"
    if FieldNames[0] !in row then KeyError(FieldNames[0])
    else if FieldNames[1] !in row then KeyError(FieldNames[1])
    else if FieldNames[2] !in row then KeyError(FieldNames[2])
    else if FieldNames[3] !in row then KeyError(FieldNames[3])
    else if FieldNames[4] !in row then KeyError(FieldNames[4])
    else if FieldNames[5] !in row then KeyError(FieldNames[5])
    else if FieldNames[6] !in row then KeyError(FieldNames[6])
    else if FieldNames[7] !in row then KeyError(FieldNames[7])
    else
      Ok(Binding(
        AsParam(row[FieldNames[0]]),
        AsParam(row[FieldNames[1]]),
        AsParam(row[FieldNames[2]]),
        AsParam(row[FieldNames[3]]),
        AsParam(row[FieldNames[4]]),
        AsParam(row[FieldNames[5]]),
        AsParam(row[FieldNames[6]]),
        OrNone(row[FieldNames[7]])))
  }

  /** The rows normalised before the first one that raises, and the key it
      raises for (`None` when every row normalises). */
  function NormaliseAll(rows: seq<map<string, Option<string>>>): (r: (seq<Binding>, Option<string>))
    ensures |r.0| <= |rows|
    ensures forall j :: 0 <= j < |r.0| ==> Normalise(rows[j]) == Ok(r.0[j])
    ensures r.1 == None ==> |r.0| == |rows|
    ensures r.1.Some? ==> |r.0| < |rows| && Normalise(rows[|r.0|]) == KeyError(r.1.value)
  {
    if rows == [] then ([], None)
    else
      var first := Normalise(rows[0]);
      if first.KeyError? then ([], Some(first.key))
      else
        var rest := NormaliseAll(rows[1..]);
        assert forall j :: 0 < j < |rows| ==> rows[j] == rows[1..][j - 1];
        ([first.value] + rest.0, rest.1)
  }

  /** The rows normalised so far, extended by one more. */
  lemma NormalisedSnoc(rows: seq<map<string, Option<string>>>, done: seq<Binding>, b: Binding)
    requires |done| < |rows| && Normalise(rows[|done|]) == Ok(b)
    requires forall j :: 0 <= j < |done| ==> Normalise(rows[j]) == Ok(done[j])
    ensures forall j :: 0 <= j < |done| + 1 ==> Normalise(rows[j]) == Ok((done + [b])[j])
  {
  }

  /** When every row normalises, `NormaliseAll` gives all of them. */
  lemma {:induction false} NormaliseAllOk(rows: seq<map<string, Option<string>>>, bound: seq<Binding>)
    requires |rows| == |bound|
    requires forall j :: 0 <= j < |rows| ==> Normalise(rows[j]) == Ok(bound[j])
    ensures NormaliseAll(rows) == (bound, None)
  {
    var r := NormaliseAll(rows);
    if r.1.Some? {
      assert false;
    }
    assert |r.0| == |bound|;
    forall j | 0 <= j < |bound| ensures r.0[j] == bound[j] {
      var x := Normalise(rows[j]);
      assert x == Ok(r.0[j]) && x == Ok(bound[j]);
    }
    assert r.0 == bound;
  }

  /** When the rows before the i-th normalise and the i-th raises,
      `NormaliseAll` gives the rows before it and the key it raises for. */
  lemma {:induction false} NormaliseAllFirstError(rows: seq<map<string, Option<string>>>, bound: seq<Binding>, key: string)
    requires |bound| < |rows|
    requires forall j :: 0 <= j < |bound| ==> Normalise(rows[j]) == Ok(bound[j])
    requires Normalise(rows[|bound|]) == KeyError(key)
    ensures NormaliseAll(rows) == (bound, Some(key))
  {
    var r := NormaliseAll(rows);
    if |r.0| != |bound| {
      assert false;
    }
    forall j | 0 <= j < |bound| ensures r.0[j] == bound[j] {
      var x := Normalise(rows[j]);
      assert x == Ok(r.0[j]) && x == Ok(bound[j]);
    }
    assert r.0 == bound;
  }

  /** The parameters main.py binds for a record it built: the record's own
      values, `date`s as dates and an absent field as NULL. */
  function RecordBinding(r: Record): (b: Binding)
    ensures b.telefono == Null <==> r.telefono == None
    ensures b.fechaPago == Null <==> r.fechaPago == None
    ensures forall j :: 0 <= j < 8 && j != 3 && j != 7 ==> FieldAt(b, j) != Null
  {
    Binding(
      Text(r.nombre),
      Text(r.email),
      Text(r.direccion),
      match r.telefono case None => Null case Some(t) => Text(t),
      Day(r.fechaNacimiento),
      Text(r.cedula),
      Day(r.fechaRegistro),
      match r.fechaPago case None => Null case Some(d) => Day(d))
  }

  /** The parameter rows main.py passes to its single insert. */
  function Bindings(rows: seq<Record>): (bound: seq<Binding>)
    ensures |bound| == |rows|
    ensures forall i :: 0 <= i < |rows| ==> (bound[i].telefono == Null <==> rows[i].telefono == None)
    ensures forall i :: 0 <= i < |rows| ==> (bound[i].fechaPago == Null <==> rows[i].fechaPago == None)
  {
    seq(|rows|, i requires 0 <= i < |rows| => RecordBinding(rows[i]))
  }

  /** How a round trip through the CSV file changes the parameters of a row:
      a date arrives as its ISO text, an absent `fecha_pago` is NULL again,
      but an absent `telefono` arrives as the empty text. */
  function ViaCsv(b: Binding): Binding
  {
    Binding(
      AsText(b.nombre), AsText(b.email), AsText(b.direccion),
      if b.telefono == Null then Text("") else AsText(b.telefono),
      AsText(b.fechaNacimiento), AsText(b.cedula), AsText(b.fechaRegistro), AsText(b.fechaPago))
  }

  function AsText(p: Param): Param
  {
    match p
    case Day(d) => Text(DateText(d))
    case _ => p
  }

  /** Writing a record to the CSV file and normalising the row read back
      gives the parameters main.py binds for it, changed only as `ViaCsv`
      says. */
  lemma NormaliseWrittenRow(r: Record)
    ensures Normalise(DictRow(FieldNames, Cells(r))) == Ok(ViaCsv(RecordBinding(r)))
  {
    var row := DictRow(FieldNames, Cells(r));
    forall j | 0 <= j < 8 ensures FieldNames[j] in row && row[FieldNames[j]] == Some(Cells(r)[j]) {
      ReadCell(r, j);
    }
    var b := Normalise(row).value;
    var e := ViaCsv(RecordBinding(r));
    assert FieldAt(b, 0) == FieldAt(e, 0) && FieldAt(b, 1) == FieldAt(e, 1);
    assert FieldAt(b, 2) == FieldAt(e, 2) && FieldAt(b, 3) == FieldAt(e, 3);
    assert FieldAt(b, 4) == FieldAt(e, 4) && FieldAt(b, 5) == FieldAt(e, 5);
    assert FieldAt(b, 6) == FieldAt(e, 6) && FieldAt(b, 7) == FieldAt(e, 7);
  }

  /** The round trip of the payment date: it is NULL after the CSV file
      exactly when it was absent in the record. */
  lemma PaymentDateRoundTrip(r: Record)
    ensures ViaCsv(RecordBinding(r)).fechaPago == Null <==> r.fechaPago == None
  {
  }

  /** The phone number does not round-trip: an absent one comes back as the
      empty text, which is not NULL. */
  lemma PhoneNumberComesBackEmpty(r: Record)
    requires r.telefono == None
    ensures Normalise(DictRow(FieldNames, Cells(r))).value.telefono == Text("") != Null
  {
    NormaliseWrittenRow(r);
  }

  /** The parameters the reader binds for the rows of a file the writer wrote. */
  function Reloaded(rows: seq<Record>): (bound: seq<Binding>)
    ensures |bound| == |rows|
  {
    seq(|rows|, i requires 0 <= i < |rows| => ViaCsv(RecordBinding(rows[i])))
  }

  /** A file the writer wrote never raises `KeyError` when read back, and
      gives one row of parameters per record, in order. */
  lemma NormaliseWrittenFile(rows: seq<Record>)
    ensures NormaliseAll(ReadDicts(WrittenFile(rows))) == (Reloaded(rows), None)
  {
    ReadWrittenFile(rows);
    var dicts := ReadDicts(WrittenFile(rows));
    forall j | 0 <= j < |rows| ensures Normalise(dicts[j]) == Ok(Reloaded(rows)[j]) {
      NormaliseWrittenRow(rows[j]);
    }
    NormaliseAllOk(dicts, Reloaded(rows));
  }

  /** Python's `not v` for an optional text: it holds for `None` and for the
      empty text.  Both programs test the database URL with it, and
      `ensure_database` tests the database name the URL gives. */
  predicate Falsy(v: Option<string>): (falsy: bool)
    ensures falsy <==> (v.Some? ==> |v.value| == 0)
  {
    match v
    case None => true
    case Some(t) => t == ""
  }

  /** The databases after `CREATE DATABASE IF NOT EXISTS` for `database`,
      skipped when the URL names no database. */
  function Ensured(databases: set<string>, database: Option<string>): (after: set<string>)
    ensures databases <= after && |after - databases| <= 1
    ensures Falsy(database) ==> after == databases
    ensures !Falsy(database) ==> database.value in after
  {
    if Falsy(database) then databases else databases + {database.value}
  }

  /** `ensure_database` is idempotent: a second call changes nothing. */
  lemma EnsureIdempotent(databases: set<string>, database: Option<string>)
    ensures Ensured(Ensured(databases, database), database) == Ensured(databases, database)
  {
  }

  /** The MySQL server as far as the programs change it: its databases and
      the batches passed to the INSERT statement, in order. */
  class Server {
    var databases: set<string>
    var inserts: seq<seq<Binding>>

    constructor (databases: set<string>)
      ensures this.databases == databases && inserts == []
    {
      this.databases := databases;
      inserts := [];
    }

    /** `CREATE DATABASE IF NOT EXISTS`. */
    method CreateDatabaseIfNotExists(name: string)
      modifies this
      ensures databases == old(databases) + {name} && inserts == old(inserts)
    {
      databases := databases + {name};
    }

    /** `conn.execute(INSERT ..., batch)`: one multi-row insert. */
    method ExecuteInsert(batch: seq<Binding>)
      modifies this
      ensures inserts == old(inserts) + [batch] && databases == old(databases)
    {
      inserts := inserts + [batch];
    }
  }

  /** `ensure_database`, given the database name `make_url` finds in the URL:
      returns early when there is none, else creates it if absent. */
  method EnsureDatabase(server: Server, database: Option<string>)
    modifies server
    ensures server.databases == Ensured(old(server.databases), database)
    ensures server.inserts == old(server.inserts)
  {
    if Falsy(database) {
      return;
    }
    server.CreateDatabaseIfNotExists(database.value);
  }

  /** One pass of the reader loop after a row normalised: append its
      parameters to the accumulator and insert the accumulator once it holds
      `chunk` rows.  Inserting exactly then keeps the inserts equal to the
      in-loop flushes and the accumulator equal to the remainder. */
  method Accumulate(server: Server, bloque: seq<Binding>, b: Binding, chunk: nat,
                    ghost done: seq<Binding>, ghost before: seq<seq<Binding>>)
    returns (next: seq<Binding>)
    requires bloque == Pending(done, chunk)
    requires server.inserts == before + Flushed(done, chunk)
    modifies server
    ensures next == Pending(done + [b], chunk)
    ensures server.inserts == before + Flushed(done + [b], chunk)
    ensures server.databases == old(server.databases)
  {
    FlushedSnoc(done, b, chunk);
    next := bloque + [b];
    if |next| == chunk {
      server.ExecuteInsert(next);
      next := [];
    }
  }

  /** The reader/ingestor loop: each row `DictReader` yields is normalised and
      appended to `bloque`, which is inserted and emptied as soon as it holds
      `chunk` rows; a non-empty remainder is inserted after the loop.  A row
      that raises `KeyError` ends the ingestion with that key, after the full
      batches before it. */
  method IngestChunked(server: Server, file: seq<seq<string>>, chunk: nat) returns (err: Option<string>)
    modifies server
    ensures var (bound, e) := NormaliseAll(ReadDicts(file));
      && err == e
      && server.inserts == old(server.inserts) + (if e == None then Batches(bound, chunk) else Flushed(bound, chunk))
    ensures server.databases == old(server.databases)
  {
    var rows := ReadDicts(file);
    var bloque: seq<Binding> := [];
    ghost var done: seq<Binding> := [];
    var i := 0;
    while i < |rows|
      invariant 0 <= i <= |rows| && |done| == i
      invariant forall j :: 0 <= j < i ==> Normalise(rows[j]) == Ok(done[j])
      invariant server.inserts == old(server.inserts) + Flushed(done, chunk)
      invariant bloque == Pending(done, chunk)
      invariant server.databases == old(server.databases)
    {
      var res := Normalise(rows[i]);
      if res.KeyError? {
        NormaliseAllFirstError(rows, done, res.key);
        return Some(res.key);
      }
      bloque := Accumulate(server, bloque, res.value, chunk, done, old(server.inserts));
      NormalisedSnoc(rows, done, res.value);
      done := done + [res.value];
      i := i + 1;
    }
    NormaliseAllOk(rows, done);
    if bloque != [] {
      server.ExecuteInsert(bloque);
    }
    err := None;
  }
}
