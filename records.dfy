/** The rows the program synthesises: the record type, and `generar_filas`
    (optim_main.py) and the list comprehension of main.py that build them.

    What Faker returns and what `random.random()` draws for row i are given
    as a `Sample`; a stream `nat -> Sample` supplies one per row. */
module Records {

  datatype Option<+T> = None | Some(value: T)

  /** A calendar date as Faker returns it (a Python `date`). */
  datatype Date = Date(year: nat, month: nat, day: nat)

  /** One synthetic row: the eight keys of the row dictionary, in the order
      of the CSV header.  `telefono` and `fechaPago` are the nullable ones. */
  datatype Record = Record(
    nombre: string,
    email: string,
    direccion: string,
    telefono: Option<string>,
    fechaNacimiento: Date,
    cedula: string,
    fechaRegistro: Date,
    fechaPago: Option<Date>)

  /** The inputs for one row: what Faker's `name`, `email`, `address`,
      `phone_number`, `date_of_birth`, `ssn` and the two `date_between` calls
      return, and the two uniform draws of `random.random()` that decide
      whether the phone number and the payment date are kept. */
  datatype Sample = Sample(
    name: string,
    email: string,
    address: string,
    phoneNumber: string,
    dateOfBirth: Date,
    ssn: string,
    registered: Date,
    paid: Date,
    phoneDraw: real,
    paidDraw: real)

  /** The number of occurrences of `c` in `s`. */
  function Count(c: char, s: string): nat
  {
    if s == [] then 0 else (if s[0] == c then 1 else 0) + Count(c, s[1..])
  }

  /** `address.replace("\n", ", ")`, one character at a time. */
  function ReplaceNewlines(s: string): (r: string)
    ensures '\n' !in r
    ensures |r| == |s| + Count('\n', s)
  {
    if s == [] then [] else (if s[0] == '\n' then ", " else [s[0]]) + ReplaceNewlines(s[1..])
  }

  /** The pieces of `s` between occurrences of `sep` (Python's `s.split(sep)`). */
  function Split(s: string, sep: char): (parts: seq<string>)
    ensures |parts| == Count(sep, s) + 1
    ensures forall i :: 0 <= i < |parts| ==> sep !in parts[i]
  {
    if s == [] then [[]]
    else
      var rest := Split(s[1..], sep);
      if s[0] == sep then [[]] + rest else [[s[0]] + rest[0]] + rest[1..]
  }

  /** `glue.join(parts)`. */
  function Join(parts: seq<string>, glue: string): string
    requires |parts| > 0
  {
    if |parts| == 1 then parts[0] else parts[0] + glue + Join(parts[1..], glue)
  }

  /** Replacing newlines character by character is the same as Python's
      `replace`: split at every newline and join the pieces with ", ". */
  lemma {:induction false} ReplaceNewlinesIsSplitJoin(s: string)
    ensures ReplaceNewlines(s) == Join(Split(s, '\n'), ", ")
  {
    if s != [] {
      ReplaceNewlinesIsSplitJoin(s[1..]);
      var rest := Split(s[1..], '\n');
      if s[0] != '\n' {
        var parts := [[s[0]] + rest[0]] + rest[1..];
        assert parts[1..] == rest[1..];
        if |rest| > 1 {
          assert Join(rest, ", ") == rest[0] + ", " + Join(rest[1..], ", ");
        }
      } else {
        assert ([[]] + rest)[1..] == rest;
      }
    }
  }

  /** An address without line breaks is stored unchanged. */
  lemma {:induction false} ReplaceNewlinesKeepsSingleLine(s: string)
    requires '\n' !in s
    ensures ReplaceNewlines(s) == s
  {
    if s != [] {
      assert '\n' !in s[1..];
      ReplaceNewlinesKeepsSingleLine(s[1..]);
    }
  }

  /** `value if draw > null_prob else None`. */
  function KeepIf<T>(draw: real, nullProb: real, value: T): (kept: Option<T>)
    ensures kept.Some? <==> draw > nullProb
    ensures kept.Some? ==> kept.value == value
  {
    if draw > nullProb then Some(value) else None
  }

  /** The dictionary built for one row (optim_main.py:34-46, main.py:26-34). */
  function BuildRow(s: Sample, nullProb: real): (r: Record)
    ensures '\n' !in r.direccion
    ensures r.telefono.Some? <==> s.phoneDraw > nullProb
    ensures r.fechaPago.Some? <==> s.paidDraw > nullProb
    ensures r.telefono.Some? ==> r.telefono.value == s.phoneNumber
    ensures r.fechaPago.Some? ==> r.fechaPago.value == s.paid
  {
    Record(
      s.name,
      s.email,
      ReplaceNewlines(s.address),
      KeepIf(s.phoneDraw, nullProb, s.phoneNumber),
      s.dateOfBirth,
      s.ssn,
      s.registered,
      KeepIf(s.paidDraw, nullProb, s.paid))
  }

  /** The rows `generar_filas(fake, n, null_prob)` yields, in order:
      one per iteration of `range(n)`, so none when `n <= 0`. */
  function GenerateRows(stream: nat -> Sample, n: int, nullProb: real): (rows: seq<Record>)
    ensures |rows| == if n > 0 then n else 0
    ensures forall i :: 0 <= i < |rows| ==> rows[i] == BuildRow(stream(i), nullProb)
    ensures forall i :: 0 <= i < |rows| ==> '\n' !in rows[i].direccion
  {
    if n <= 0 then [] else GenerateRows(stream, n - 1, nullProb) + [BuildRow(stream(n - 1), nullProb)]
  }

  /** Each nullable field of a generated row is present exactly when its own
      draw exceeds the null probability, and then holds what Faker returned. */
  lemma GeneratedNullables(stream: nat -> Sample, n: int, nullProb: real, i: nat)
    requires i < n
    ensures var r := GenerateRows(stream, n, nullProb)[i];
      && (r.telefono.Some? <==> stream(i).phoneDraw > nullProb)
      && (r.telefono.Some? ==> r.telefono.value == stream(i).phoneNumber)
      && (r.fechaPago.Some? <==> stream(i).paidDraw > nullProb)
      && (r.fechaPago.Some? ==> r.fechaPago.value == stream(i).paid)
  {
  }

  /** Draws of `random.random()` lie in [0, 1). */
  ghost predicate UnitDraws(stream: nat -> Sample, n: int)
  {
    forall i: nat :: i < n ==> 0.0 <= stream(i).phoneDraw < 1.0 && 0.0 <= stream(i).paidDraw < 1.0
  }

  /** With a null probability of 1 or more no draw exceeds it: every phone
      number and every payment date is absent. */
  lemma AllAbsentWhenNullProbAtLeastOne(stream: nat -> Sample, n: int, nullProb: real)
    requires UnitDraws(stream, n) && nullProb >= 1.0
    ensures forall r :: r in GenerateRows(stream, n, nullProb) ==> r.telefono == None && r.fechaPago == None
  {
  }

  /** With a null probability of 0 a field is absent only when its draw is
      exactly 0.0: `>` is strict. */
  lemma AbsentWhenNullProbZero(stream: nat -> Sample, n: int, i: nat)
    requires UnitDraws(stream, n) && i < n
    ensures GenerateRows(stream, n, 0.0)[i].telefono == None <==> stream(i).phoneDraw == 0.0
    ensures GenerateRows(stream, n, 0.0)[i].fechaPago == None <==> stream(i).paidDraw == 0.0
  {
  }

  /** The number of rows without a phone number. */
  function AbsentPhones(rows: seq<Record>): nat
  {
    if rows == [] then 0 else AbsentPhones(rows[..|rows| - 1]) + (if rows[|rows| - 1].telefono == None then 1 else 0)
  }

  /** The number of the first `n` phone draws that do not exceed `nullProb`. */
  function DrawsAtMost(stream: nat -> Sample, n: nat, nullProb: real): nat
  {
    if n == 0 then 0 else DrawsAtMost(stream, n - 1, nullProb) + (if stream(n - 1).phoneDraw <= nullProb then 1 else 0)
  }

  /** Null injection: the number of rows without a phone number is the number
      of draws at or below the null probability, so its share of the rows is
      the share of such draws. */
  lemma {:induction false} AbsentPhonesCount(stream: nat -> Sample, n: nat, nullProb: real)
    ensures AbsentPhones(GenerateRows(stream, n, nullProb)) == DrawsAtMost(stream, n, nullProb)
  {
    if n > 0 {
      AbsentPhonesCount(stream, n - 1, nullProb);
      var rows := GenerateRows(stream, n, nullProb);
      assert rows[..|rows| - 1] == GenerateRows(stream, n - 1, nullProb);
    }
  }
}
