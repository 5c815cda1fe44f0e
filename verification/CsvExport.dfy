/**
 * The ledger export: the CSV printer of `ExportPlatformLedgerUseCase`, and an
 * independent reader of RFC 4180 section 2 that it is checked against.
 */
module CsvExport {
  import opened Prelude

  /** A ledger entry as the response mapper hands it over. */
  datatype Row = Row(
    id: string,
    entryType: string,
    amountPaise: string,
    runningBalancePaise: string,
    restaurantId: Option<string>,
    referenceId: Option<string>,
    createdAt: string)

  function Columns(): (columns: seq<string>)
    ensures |columns| == 7
  {
    ["id", "type", "amountPaise", "runningBalancePaise", "restaurantId", "referenceId", "createdAt"]
  }

  function Cells(row: Row): (cells: seq<Option<string>>)
    ensures |cells| == 7
  {
    [Some(row.id), Some(row.entryType), Some(row.amountPaise), Some(row.runningBalancePaise),
     row.restaurantId, row.referenceId, Some(row.createdAt)]
  }

  function DoubleQuotes(s: string): string {
    if s == "" then ""
    else (if s[0] == '"' then "\"\"" else [s[0]]) + DoubleQuotes(s[1..])
  }

  function CsvCell(value: Option<string>): string {
    "\"" + DoubleQuotes(value.GetOr("")) + "\""
  }

  function Join(parts: seq<string>, separator: string): string {
    if parts == [] then ""
    else if |parts| == 1 then parts[0]
    else parts[0] + separator + Join(parts[1..], separator)
  }

  function CellTexts(row: Row): seq<string> {
    seq(7, i requires 0 <= i < 7 => CsvCell(Cells(row)[i]))
  }

  function Lines(rows: seq<Row>): seq<string> {
    seq(|rows|, i requires 0 <= i < |rows| => Join(CellTexts(rows[i]), ","))
  }

  function Export(rows: seq<Row>): string {
    Join([Join(Columns(), ",")] + Lines(rows), "\r\n")
  }

  datatype Mode = FieldStart | Bare | Quoted | QuoteSeen | CarriageReturn | Malformed

  /** A reader halfway through a file: the field and record being read, and the records done. */
  datatype Reader = Reader(mode: Mode, field: string, fields: seq<string>, records: seq<seq<string>>) {

    function EndField(): Reader {
      Reader(FieldStart, "", fields + [field], records)
    }

    function EndRecord(): Reader {
      Reader(FieldStart, "", [], records + [fields + [field]])
    }

    function Read(c: char): Reader {
      match mode
      case Quoted =>
        if c == '"' then this.(mode := QuoteSeen) else this.(field := field + [c])
      case QuoteSeen =>
        if c == '"' then this.(mode := Quoted, field := field + ['"'])
        else if c == ',' then EndField()
        else if c == '\r' then this.(mode := CarriageReturn)
        else this.(mode := Malformed)
      case CarriageReturn =>
        if c == '\n' then EndRecord() else this.(mode := Malformed)
      case Malformed => this
      case _ =>
        if c == ',' then EndField()
        else if c == '\r' then this.(mode := CarriageReturn)
        else if c == '"' && mode == FieldStart then this.(mode := Quoted)
        else if c == '"' || c == '\n' then this.(mode := Malformed)
        else this.(mode := Bare, field := field + [c])
    }

    function ReadAll(s: string): Reader
      decreases |s|
    {
      if s == "" then this else Read(s[0]).ReadAll(s[1..])
    }

    /** The last record may or may not end in a line break. */
    function Finish(): Option<seq<seq<string>>> {
      match mode
      case FieldStart => Some(if fields == [] && records != [] then records else EndRecord().records)
      case Bare => Some(EndRecord().records)
      case QuoteSeen => Some(EndRecord().records)
      case _ => None
    }
  }

  function Parse(file: string): Option<seq<seq<string>>> {
    Reader(FieldStart, "", [], []).ReadAll(file).Finish()
  }

  /** A row as it is read back: null has become the empty string. */
  function ReadBack(row: Row): seq<string> {
    seq(7, i requires 0 <= i < 7 => Cells(row)[i].GetOr(""))
  }

  function ReadBackAll(rows: seq<Row>): seq<seq<string>> {
    seq(|rows|, i requires 0 <= i < |rows| => ReadBack(rows[i]))
  }

  lemma {:induction false} ReadAllAppends(r: Reader, s: string, t: string)
    ensures r.ReadAll(s + t) == r.ReadAll(s).ReadAll(t)
    decreases |s|
  {
    hide Reader.Read;
    if s == "" {
      assert s + t == t;
    } else {
      assert (s + t)[0] == s[0] && (s + t)[1..] == s[1..] + t;
      ReadAllAppends(r.Read(s[0]), s[1..], t);
    }
  }

  lemma {:induction false} DoubledQuotesRead(r: Reader, s: string)
    requires r.mode == Quoted
    ensures r.ReadAll(DoubleQuotes(s)) == r.(field := r.field + s)
    decreases |s|
  {
    if s == "" {
      assert r.field + s == r.field;
    } else {
      var head := if s[0] == '"' then "\"\"" else [s[0]];
      ReadAllAppends(r, head, DoubleQuotes(s[1..]));
      var next := r.(field := r.field + [s[0]]);
      assert r.ReadAll(head) == next by {
        if s[0] == '"' {
          assert head[1..] == "\"" && head[1..][1..] == "";
          assert r.ReadAll(head) == r.Read('"').ReadAll("\"") == r.Read('"').Read('"').ReadAll("");
        } else {
          assert head[1..] == "";
        }
      }
      DoubledQuotesRead(next, s[1..]);
      assert next.field + s[1..] == r.field + s;
    }
  }

  /** Reading `text` at the start of a field leaves `value` in the field, complete. */
  ghost predicate Holds(text: string, value: string) {
    forall fields, records :: Complete(Reader(FieldStart, "", fields, records).ReadAll(text), fields, records, value)
  }

  ghost predicate Complete(r: Reader, fields: seq<string>, records: seq<seq<string>>, value: string) {
    (r.mode == Bare || r.mode == QuoteSeen) && r.field == value && r.fields == fields && r.records == records
  }

  lemma CsvCellHolds(value: Option<string>)
    ensures Holds(CsvCell(value), value.GetOr(""))
  {
    var v := value.GetOr("");
    forall fields, records
      ensures Complete(Reader(FieldStart, "", fields, records).ReadAll(CsvCell(value)), fields, records, v)
    {
      var r := Reader(FieldStart, "", fields, records);
      ReadAllAppends(r, "\"" + DoubleQuotes(v), "\"");
      ReadAllAppends(r, "\"", DoubleQuotes(v));
      assert "\""[1..] == "";
      assert r.ReadAll("\"") == Reader(Quoted, "", fields, records);
      DoubledQuotesRead(Reader(Quoted, "", fields, records), v);
      assert "" + v == v;
    }
  }

  predicate IsPlain(s: string) {
    forall i :: 0 <= i < |s| ==> s[i] != '"' && s[i] != ',' && s[i] != '\r' && s[i] != '\n'
  }

  lemma {:induction false} PlainReads(r: Reader, s: string)
    requires (r.mode == FieldStart || r.mode == Bare) && IsPlain(s)
    ensures s != "" ==> r.ReadAll(s) == r.(mode := Bare, field := r.field + s)
    decreases |s|
  {
    if s != "" {
      var next := r.(mode := Bare, field := r.field + [s[0]]);
      PlainReads(next, s[1..]);
      assert next.field + s[1..] == r.field + s;
      if s[1..] == "" {
        assert s == [s[0]];
      }
    }
  }

  lemma PlainHolds(s: string)
    requires s != "" && IsPlain(s)
    ensures Holds(s, s)
  {
    forall fields, records
      ensures Complete(Reader(FieldStart, "", fields, records).ReadAll(s), fields, records, s)
    {
      PlainReads(Reader(FieldStart, "", fields, records), s);
      assert "" + s == s;
    }
  }

  /** A line of complete fields is read as one record of their values. */
  lemma {:induction false} LineReads(texts: seq<string>, values: seq<string>, fields: seq<string>,
                                     records: seq<seq<string>>)
    requires |texts| == |values| > 0
    requires forall i :: 0 <= i < |texts| ==> Holds(texts[i], values[i])
    ensures var n := |values| - 1;
            Complete(Reader(FieldStart, "", fields, records).ReadAll(Join(texts, ",")), fields + values[..n], records,
                     values[n])
  {
    var r := Reader(FieldStart, "", fields, records);
    var read := r.ReadAll(texts[0]);
    assert Complete(read, fields, records, values[0]);
    if |texts| == 1 {
      assert fields + values[..0] == fields;
    } else {
      var rest := Join(texts[1..], ",");
      ReadAllAppends(r, texts[0] + ",", rest);
      ReadAllAppends(r, texts[0], ",");
      assert ","[1..] == "";
      assert read.ReadAll(",") == Reader(FieldStart, "", fields + [values[0]], records);
      LineReads(texts[1..], values[1..], fields + [values[0]], records);
      var n := |values| - 1;
      assert fields + [values[0]] + values[1..][..n - 1] == fields + values[..n];
      assert values[1..][n - 1] == values[n];
    }
  }

  /** `line` is read as the record `values`. */
  ghost predicate HoldsRecord(line: string, values: seq<string>) {
    values != [] &&
    forall records ::
      Complete(Reader(FieldStart, "", [], records).ReadAll(line), values[..|values| - 1], records, values[|values| - 1])
  }

  lemma LineHolds(texts: seq<string>, values: seq<string>)
    requires |texts| == |values| > 0
    requires forall i :: 0 <= i < |texts| ==> Holds(texts[i], values[i])
    ensures HoldsRecord(Join(texts, ","), values)
  {
    var n := |values| - 1;
    forall records
      ensures Complete(Reader(FieldStart, "", [], records).ReadAll(Join(texts, ",")), values[..n], records, values[n])
    {
      LineReads(texts, values, [], records);
      assert [] + values[..n] == values[..n];
    }
  }

  lemma {:induction false} FileReads(lines: seq<string>, values: seq<seq<string>>, records: seq<seq<string>>)
    requires |lines| == |values| > 0
    requires forall i :: 0 <= i < |lines| ==> HoldsRecord(lines[i], values[i])
    ensures Reader(FieldStart, "", [], records).ReadAll(Join(lines, "\r\n")).Finish() == Some(records + values)
  {
    var r := Reader(FieldStart, "", [], records);
    var read := r.ReadAll(lines[0]);
    var n := |values[0]| - 1;
    assert HoldsRecord(lines[0], values[0]);
    assert Complete(read, values[0][..n], records, values[0][n]);
    assert values[0][..n] + [values[0][n]] == values[0];
    if |lines| == 1 {
      assert values == [values[0]];
    } else {
      var rest := Join(lines[1..], "\r\n");
      ReadAllAppends(r, lines[0] + "\r\n", rest);
      ReadAllAppends(r, lines[0], "\r\n");
      assert "\r\n"[1..] == "\n" && "\n"[1..] == "";
      assert read.ReadAll("\r\n") == read.Read('\r').ReadAll("\n") == read.Read('\r').Read('\n').ReadAll("");
      assert read.ReadAll("\r\n") == Reader(FieldStart, "", [], records + [values[0]]);
      FileReads(lines[1..], values[1..], records + [values[0]]);
      assert records + [values[0]] + values[1..] == records + values;
    }
  }

  lemma HeaderHolds()
    ensures HoldsRecord(Join(Columns(), ","), Columns())
  {
    hide Holds, HoldsRecord, Join;
    forall k | 0 <= k < 7
      ensures Holds(Columns()[k], Columns()[k])
    {
      PlainHolds(Columns()[k]);
    }
    LineHolds(Columns(), Columns());
  }

  lemma RowHolds(row: Row)
    ensures HoldsRecord(Join(CellTexts(row), ","), ReadBack(row))
  {
    hide Holds, HoldsRecord, Join, CsvCell, Cells;
    forall k | 0 <= k < 7
      ensures Holds(CellTexts(row)[k], ReadBack(row)[k])
    {
      CsvCellHolds(Cells(row)[k]);
    }
    LineHolds(CellTexts(row), ReadBack(row));
  }

  lemma LinesHold(rows: seq<Row>)
    ensures |Lines(rows)| == |ReadBackAll(rows)| == |rows|
    ensures forall i :: 0 <= i < |rows| ==> HoldsRecord(Lines(rows)[i], ReadBackAll(rows)[i])
  {
    hide HoldsRecord, Join, CellTexts, ReadBack;
    forall i | 0 <= i < |rows|
      ensures HoldsRecord(Lines(rows)[i], ReadBackAll(rows)[i])
    {
      RowHolds(rows[i]);
    }
  }

  /** Every export reads back as the header and its rows, whatever the fields contain. */
  lemma ExportReadsBack(rows: seq<Row>)
    ensures Parse(Export(rows)) == Some([Columns()] + ReadBackAll(rows))
  {
    hide HoldsRecord, Join, Lines, ReadBackAll, Columns, Reader.ReadAll, Reader.Finish;
    HeaderHolds();
    LinesHold(rows);
    FileReads([Join(Columns(), ",")] + Lines(rows), [Columns()] + ReadBackAll(rows), []);
    assert [] + ([Columns()] + ReadBackAll(rows)) == [Columns()] + ReadBackAll(rows);
  }

  /** The field of a record that stands under a name of the header. */
  function FieldUnder(header: seq<string>, record: seq<string>, name: string): Option<string>
    requires |header| == |record|
  {
    if header == [] then None
    else if header[0] == name then Some(record[0])
    else FieldUnder(header[1..], record[1..], name)
  }

  /** `record` holds the fields of `row` under the names it has them by, with null as the empty string. */
  predicate IsRecordOf(header: seq<string>, record: seq<string>, row: Row) {
    && |header| == |record|
    && FieldUnder(header, record, "id") == Some(row.id)
    && FieldUnder(header, record, "type") == Some(row.entryType)
    && FieldUnder(header, record, "amountPaise") == Some(row.amountPaise)
    && FieldUnder(header, record, "runningBalancePaise") == Some(row.runningBalancePaise)
    && FieldUnder(header, record, "restaurantId") == Some(if row.restaurantId.Some? then row.restaurantId.value else "")
    && FieldUnder(header, record, "referenceId") == Some(if row.referenceId.Some? then row.referenceId.value else "")
    && FieldUnder(header, record, "createdAt") == Some(row.createdAt)
  }

  lemma {:induction false} FieldAt(header: seq<string>, record: seq<string>, k: nat)
    requires |header| == |record| && k < |header|
    requires forall i :: 0 <= i < k ==> header[i] != header[k]
    ensures FieldUnder(header, record, header[k]) == Some(record[k])
  {
    if k > 0 {
      assert header[0] != header[k];
      FieldAt(header[1..], record[1..], k - 1);
    }
  }

  lemma ReadBackIsRecord(row: Row)
    ensures IsRecordOf(Columns(), ReadBack(row), row)
  {
    hide FieldUnder;
    forall k | 0 <= k < 7
      ensures FieldUnder(Columns(), ReadBack(row), Columns()[k]) == Some(ReadBack(row)[k])
    {
      FieldAt(Columns(), ReadBack(row), k);
    }
    var header, record := Columns(), ReadBack(row);
    assert FieldUnder(header, record, header[0]) == Some(record[0]);
    assert FieldUnder(header, record, header[1]) == Some(record[1]);
    assert FieldUnder(header, record, header[2]) == Some(record[2]);
    assert FieldUnder(header, record, header[3]) == Some(record[3]);
    assert FieldUnder(header, record, header[4]) == Some(record[4]);
    assert FieldUnder(header, record, header[5]) == Some(record[5]);
    assert FieldUnder(header, record, header[6]) == Some(record[6]);
  }

  /** In the file that is read back, every field of every row stands under its own name. */
  lemma FieldsStandUnderTheirNames(rows: seq<Row>)
    ensures Parse(Export(rows)).Some?
    ensures var file := Parse(Export(rows)).value;
            |file| == |rows| + 1 && forall i :: 0 <= i < |rows| ==> IsRecordOf(file[0], file[i + 1], rows[i])
  {
    hide Parse, Export, Columns, ReadBack, IsRecordOf;
    ExportReadsBack(rows);
    forall i | 0 <= i < |rows|
      ensures IsRecordOf(Columns(), ReadBack(rows[i]), rows[i])
    {
      ReadBackIsRecord(rows[i]);
    }
  }
}
