/** The CSV file between the writer and the reader.

    Python's `csv` module is not modelled; three of its behaviours are taken
    as given: `DictWriter` writes `None` as an empty cell and a `date` as its
    ISO text (`str(date)`), and reading the file back returns exactly the
    cells that were written.  A file is therefore a sequence of rows of cells,
    its first row the header.  `DictReader`'s pairing of header and cells is
    modelled: the cells are zipped with the header names, a short row gets
    `None` for the names without a cell, and blank rows are skipped. */
module Csv {
  import opened Records

  /** The header, `fieldnames` (optim_main.py:53-56, main.py:39). */
  const FieldNames: seq<string> :=
    ["nombre", "email", "direccion", "telefono", "fecha_nacimiento", "cedula", "fecha_registro", "fecha_pago"]

  /** No name appears twice in a header. */
  ghost predicate Distinct(header: seq<string>)
  {
    forall i, j :: 0 <= i < j < |header| ==> header[i] != header[j]
  }

  lemma FieldNamesDistinct()
    ensures |FieldNames| == 8 && Distinct(FieldNames)
  {
    var f := FieldNames;
    // first letters n, e, d, t, f, c, f, f; the three "fecha_" names differ in length
    assert f[0][0] == 'n' && f[1][0] == 'e' && f[2][0] == 'd' && f[3][0] == 't';
    assert f[4][0] == 'f' && f[5][0] == 'c' && f[6][0] == 'f' && f[7][0] == 'f';
    assert |f[4]| == 16 && |f[6]| == 14 && |f[7]| == 10;
  }

  /** The decimal digits of `n`. */
  function Digits(n: nat): (r: string)
    ensures |r| >= 1
  {
    if n < 10 then [('0' as int + n) as char] else Digits(n / 10) + [('0' as int + n % 10) as char]
  }

  /** `s` with zeros in front up to `width` characters. */
  function ZeroPad(s: string, width: nat): (r: string)
    ensures |r| >= width && |r| >= |s|
    decreases width - |s|
  {
    if |s| >= width then s else ZeroPad(['0'] + s, width)
  }

  /** `str(d)`: the ISO 8601 text YYYY-MM-DD. */
  function DateText(d: Date): (r: string)
    ensures |r| >= 10
  {
    ZeroPad(Digits(d.year), 4) + "-" + ZeroPad(Digits(d.month), 2) + "-" + ZeroPad(Digits(d.day), 2)
  }

  /** A nullable text cell: `None` is written as the empty cell. */
  function OptionText(v: Option<string>): string
  {
    match v
    case None => ""
    case Some(s) => s
  }

  /** A nullable date cell. */
  function OptionDateText(v: Option<Date>): string
  {
    match v
    case None => ""
    case Some(d) => DateText(d)
  }

  /** The cells `DictWriter` writes for a record: one per header name, in the
      order of the header.  An absent payment date is the only way its cell
      can be empty; an absent phone number gives an empty cell too. */
  function Cells(r: Record): (cells: seq<string>)
    ensures |cells| == |FieldNames|
    ensures cells[7] == "" <==> r.fechaPago == None
    ensures r.telefono == None ==> cells[3] == ""
  {
    [r.nombre, r.email, r.direccion, OptionText(r.telefono),
     DateText(r.fechaNacimiento), r.cedula, DateText(r.fechaRegistro), OptionDateText(r.fechaPago)]
  }

  /** The data rows written for `rows`, in order. */
  function Rendered(rows: seq<Record>): (lines: seq<seq<string>>)
    ensures |lines| == |rows|
    ensures forall i :: 0 <= i < |lines| ==> |lines[i]| == |FieldNames|
  {
    seq(|rows|, i requires 0 <= i < |rows| => Cells(rows[i]))
  }

  /** Writing two lists of rows one after the other writes their rows in
      that order: `writerows` calls leave no mark in the file. */
  lemma RenderedAppend(a: seq<Record>, b: seq<Record>)
    ensures Rendered(a + b) == Rendered(a) + Rendered(b)
  {
    var ra, rb, rab := Rendered(a), Rendered(b), Rendered(a + b);
    forall i | 0 <= i < |rab|
      ensures rab[i] == (ra + rb)[i]
    {
      if i < |a| {
        assert (a + b)[i] == a[i];
      } else {
        assert (a + b)[i] == b[i - |a|];
      }
    }
  }

  /** The whole file: `writeheader()` once, then the data rows. */
  function WrittenFile(rows: seq<Record>): (file: seq<seq<string>>)
    ensures |file| == |rows| + 1 && file[0] == FieldNames
    ensures forall i :: 1 <= i < |file| ==> |file[i]| == |FieldNames|
  {
    [FieldNames] + Rendered(rows)
  }

  /** The dictionary `DictReader` makes of one row: `dict(zip(header, cells))`,
      and `None` (the default `restval`) for the names past the last cell.
      Assignments happen in header order, so a repeated name keeps its last
      value. */
  function DictRow(header: seq<string>, cells: seq<string>): (row: map<string, Option<string>>)
    ensures row.Keys == set k | k in header
  {
    if header == [] then map[]
    else
      var j := |header| - 1;
      DictRow(header[..j], cells)[header[j] := if j < |cells| then Some(cells[j]) else None]
  }

  /** Under a header without repeated names, the value of the j-th name is
      the j-th cell, or `None` when the row is shorter. */
  lemma {:induction false} DictRowAt(header: seq<string>, cells: seq<string>, j: nat)
    requires Distinct(header) && j < |header|
    ensures DictRow(header, cells)[header[j]] == if j < |cells| then Some(cells[j]) else None
  {
    var last := |header| - 1;
    if j < last {
      assert header[..last][j] == header[j];
      DictRowAt(header[..last], cells, j);
    }
  }

  /** The rows `DictReader` yields for the data lines after the header. */
  function DataRows(header: seq<string>, lines: seq<seq<string>>): (rows: seq<map<string, Option<string>>>)
    ensures |rows| <= |lines|
    ensures forall i :: 0 <= i < |rows| ==> rows[i].Keys == set k | k in header
  {
    if lines == [] then []
    else (if lines[0] == [] then [] else [DictRow(header, lines[0])]) + DataRows(header, lines[1..])
  }

  /** The rows `DictReader` yields for a whole file: the first row is the
      header; an empty file yields nothing. */
  function ReadDicts(file: seq<seq<string>>): (rows: seq<map<string, Option<string>>>)
    ensures file == [] ==> rows == []
    ensures file != [] ==> |rows| < |file| && forall i :: 0 <= i < |rows| ==> rows[i].Keys == set k | k in file[0]
  {
    if file == [] then [] else DataRows(file[0], file[1..])
  }

  /** Reading the written file gives one dictionary per record, in order,
      keyed by the header names. */
  lemma ReadWrittenFile(rows: seq<Record>)
    ensures ReadDicts(WrittenFile(rows)) == seq(|rows|, i requires 0 <= i < |rows| => DictRow(FieldNames, Cells(rows[i])))
  {
    var lines := Rendered(rows);
    assert WrittenFile(rows)[1..] == lines;
    DataRowsNonBlank(FieldNames, lines);
  }

  /** Without blank lines, the reader yields one dictionary per line. */
  lemma {:induction false} DataRowsNonBlank(header: seq<string>, lines: seq<seq<string>>)
    requires forall i :: 0 <= i < |lines| ==> lines[i] != []
    ensures DataRows(header, lines) == seq(|lines|, i requires 0 <= i < |lines| => DictRow(header, lines[i]))
  {
    if lines != [] {
      DataRowsNonBlank(header, lines[1..]);
      var want := seq(|lines|, i requires 0 <= i < |lines| => DictRow(header, lines[i]));
      var rest := seq(|lines| - 1, i requires 0 <= i < |lines| - 1 => DictRow(header, lines[1..][i]));
      assert want == [want[0]] + rest;
    }
  }

  /** The value the reader sees under header name `FieldNames[j]` for a
      written record is the j-th cell written for it. */
  lemma ReadCell(r: Record, j: nat)
    requires j < 8
    ensures FieldNames[j] in DictRow(FieldNames, Cells(r))
    ensures DictRow(FieldNames, Cells(r))[FieldNames[j]] == Some(Cells(r)[j])
  {
    FieldNamesDistinct();
    DictRowAt(FieldNames, Cells(r), j);
  }
}
