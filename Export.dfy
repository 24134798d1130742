/** The CSV export of the customer segmentation: cell escaping (section 2, rules 6 and 7 of
    RFC 4180), file names, and the rows of the segment summary and of the client list. A reader
    of the format (`ParseCsv`) is defined alongside so that the escaping can be checked against
    it: reading an export back gives the cells that were written. */
module Export {
  import opened Prelude
  import Formatters

  /** A cell as the export functions build it: a missing value, a text, or an integer count. */
  datatype Cell = Missing | Text(text: string) | Count(count: int)

  /** `String(value)`, with null and undefined read as the empty text. */
  function CellString(c: Cell): string
  {
    match c
    case Missing => ""
    case Text(s) => s
    case Count(n) => IntToString(n)
  }

  predicate NeedsQuotes(s: string)
  {
    ',' in s || '"' in s || '\n' in s
  }

  /** `s.replace(/"/g, '""')`. */
  function DoubleQuotes(s: string): (r: string)
    ensures |r| >= |s|
    ensures '"' !in s ==> r == s
  {
    if s == [] then []
    else (if s[0] == '"' then "\"\"" else [s[0]]) + DoubleQuotes(s[1..])
  }

  /** `escapeCSVCell`. */
  function Escape(c: Cell): (r: string)
    ensures c.Missing? ==> r == ""
    ensures NeedsQuotes(CellString(c)) ==> r == "\"" + DoubleQuotes(CellString(c)) + "\""
    ensures !NeedsQuotes(CellString(c)) ==> r == CellString(c)
  {
    var s := CellString(c);
    if NeedsQuotes(s) then "\"" + DoubleQuotes(s) + "\"" else s
  }

  // ---------------------------------------------------------------------------------------
  // Reading CSV back
  // ---------------------------------------------------------------------------------------

  /** Reads the body of a quoted field, just after its opening quote: `""` stands for one quote
      and a lone quote closes the field. Returns the field and what follows the closing quote. */
  function QuotedBody(s: string): (r: (string, string))
    ensures |r.1| <= |s|
  {
    if s == [] then ([], [])
    else if s[0] == '"' then
      if |s| > 1 && s[1] == '"' then
        var inner := QuotedBody(s[2..]);
        (['"'] + inner.0, inner.1)
      else ([], s[1..])
    else
      var inner := QuotedBody(s[1..]);
      ([s[0]] + inner.0, inner.1)
  }

  /** Reads an unquoted field, up to the next comma or line break. */
  function PlainField(s: string): (r: (string, string))
    ensures |r.1| <= |s|
  {
    if s == [] || s[0] == ',' || s[0] == '\n' then ([], s)
    else
      var inner := PlainField(s[1..]);
      ([s[0]] + inner.0, inner.1)
  }

  function ParseField(s: string): (r: (string, string))
    ensures |r.1| <= |s|
  {
    if s != [] && s[0] == '"' then QuotedBody(s[1..]) else PlainField(s)
  }

  /** Reads the comma-separated fields of one record; returns them and the rest of the text,
      which is empty or starts at the record's line break. */
  function ParseRecord(s: string): (r: (seq<string>, string))
    ensures |r.1| <= |s|
    decreases |s|
  {
    var field := ParseField(s);
    if field.1 != [] && field.1[0] == ',' then
      var more := ParseRecord(field.1[1..]);
      ([field.0] + more.0, more.1)
    else ([field.0], field.1)
  }

  /** Reads every record of a text whose records are separated by line breaks. */
  function ParseCsv(s: string): seq<seq<string>>
    decreases |s|
  {
    var record := ParseRecord(s);
    if record.1 != [] && record.1[0] == '\n' then [record.0] + ParseCsv(record.1[1..])
    else [record.0]
  }

  // ---------------------------------------------------------------------------------------
  // Writing CSV
  // ---------------------------------------------------------------------------------------

  function EscapeAll(cells: seq<Cell>): (r: seq<string>)
    ensures |r| == |cells| && forall i :: 0 <= i < |cells| ==> r[i] == Escape(cells[i])
  {
    if cells == [] then [] else [Escape(cells[0])] + EscapeAll(cells[1..])
  }

  function Strings(cells: seq<Cell>): (r: seq<string>)
    ensures |r| == |cells| && forall i :: 0 <= i < |cells| ==> r[i] == CellString(cells[i])
  {
    if cells == [] then [] else [CellString(cells[0])] + Strings(cells[1..])
  }

  /** `row.map(escapeCSVCell).join(',')`. */
  function Line(row: seq<Cell>): string
  {
    Join(",", EscapeAll(row))
  }

  function Lines(rows: seq<seq<Cell>>): (r: seq<string>)
    ensures |r| == |rows| && forall i :: 0 <= i < |rows| ==> r[i] == Line(rows[i])
  {
    if rows == [] then [] else [Line(rows[0])] + Lines(rows[1..])
  }

  /** The rows' lines joined with line breaks. */
  function Csv(rows: seq<seq<Cell>>): string
  {
    Join("\n", Lines(rows))
  }

  function Texts(rows: seq<seq<Cell>>): (r: seq<seq<string>>)
    ensures |r| == |rows| && forall i :: 0 <= i < |rows| ==> r[i] == Strings(rows[i])
  {
    if rows == [] then [] else [Strings(rows[0])] + Texts(rows[1..])
  }

  /** What may follow a field: nothing, a comma or a line break. */
  predicate FieldEnd(t: string)
  {
    t == [] || t[0] == ',' || t[0] == '\n'
  }

  lemma {:induction false} QuotedRoundTrip(x: string, t: string)
    requires FieldEnd(t)
    ensures QuotedBody(DoubleQuotes(x) + "\"" + t) == (x, t)
  {
    if x == [] {
      assert DoubleQuotes(x) + "\"" + t == ['"'] + t;
      DropFirst('"', t);
      assert |['"'] + t| > 1 ==> (['"'] + t)[1] == t[0] != '"';
    } else {
      QuotedRoundTrip(x[1..], t);
      var rest := DoubleQuotes(x[1..]) + "\"" + t;
      var head := if x[0] == '"' then "\"\"" else [x[0]];
      assert DoubleQuotes(x) == head + DoubleQuotes(x[1..]);
      AppendAssoc(head, DoubleQuotes(x[1..]), "\"", t);
      if x[0] == '"' {
        QuotedBodyEscapedQuote(rest);
      } else {
        QuotedBodyPlainChar(x[0], rest);
      }
      assert x == [x[0]] + x[1..];
    }
  }

  lemma AppendAssoc(a: string, b: string, c: string, d: string)
    ensures ((a + b) + c) + d == a + ((b + c) + d)
  {
  }

  /** A doubled quote inside a quoted field reads as one quote. */
  lemma QuotedBodyEscapedQuote(rest: string)
    ensures QuotedBody("\"\"" + rest) == (['"'] + QuotedBody(rest).0, QuotedBody(rest).1)
  {
    assert ("\"\"" + rest)[2..] == rest;
  }

  /** Any other character inside a quoted field reads as itself. */
  lemma QuotedBodyPlainChar(c: char, rest: string)
    requires c != '"'
    ensures QuotedBody([c] + rest) == ([c] + QuotedBody(rest).0, QuotedBody(rest).1)
  {
    DropFirst(c, rest);
  }

  lemma {:induction false} PlainRoundTrip(x: string, t: string)
    requires ',' !in x && '\n' !in x
    requires FieldEnd(t)
    ensures PlainField(x + t) == (x, t)
  {
    if x != [] {
      assert (x + t)[1..] == x[1..] + t;
      assert x[0] in x;
      assert forall c :: c in x[1..] ==> c in x;
      PlainRoundTrip(x[1..], t);
      assert [x[0]] + x[1..] == x;
    } else {
      assert x + t == t;
    }
  }

  /** An escaped cell followed by a field end reads back as the cell's text. */
  lemma FieldRoundTrip(c: Cell, t: string)
    requires FieldEnd(t)
    ensures ParseField(Escape(c) + t) == (CellString(c), t)
  {
    var s := CellString(c);
    if NeedsQuotes(s) {
      QuotedFieldRoundTrip(s, t);
    } else {
      PlainFieldRoundTrip(s, t);
    }
  }

  lemma QuotedFieldRoundTrip(s: string, t: string)
    requires FieldEnd(t)
    ensures ParseField("\"" + DoubleQuotes(s) + "\"" + t) == (s, t)
  {
    var body := DoubleQuotes(s) + "\"" + t;
    assert "\"" + DoubleQuotes(s) + "\"" + t == ['"'] + body;
    assert (['"'] + body)[1..] == body;
    QuotedRoundTrip(s, t);
  }

  lemma PlainFieldRoundTrip(s: string, t: string)
    requires FieldEnd(t) && !NeedsQuotes(s)
    ensures ParseField(s + t) == (s, t)
  {
    PlainRoundTrip(s, t);
    if s != [] {
      assert (s + t)[0] == s[0] && s[0] in s;
    } else {
      assert s + t == t;
    }
  }

  lemma RecordStep(s: string, field: string, tail: string, fields: seq<string>, t: string)
    requires ParseField(s) == (field, tail) && tail != [] && tail[0] == ','
    requires ParseRecord(tail[1..]) == (fields, t)
    ensures ParseRecord(s) == ([field] + fields, t)
  {
  }

  lemma RecordEnd(s: string, field: string, t: string)
    requires ParseField(s) == (field, t) && (t == [] || t[0] == '\n')
    ensures ParseRecord(s) == ([field], t)
  {
  }

  lemma LineCons(row: seq<Cell>, t: string)
    requires |row| > 1
    ensures Line(row) + t == Escape(row[0]) + ([','] + (Line(row[1..]) + t))
  {
    var items := EscapeAll(row);
    assert items[1..] == EscapeAll(row[1..]);
    assert Line(row) == items[0] + "," + Line(row[1..]);
    CommaAssoc(items[0], Line(row[1..]), t);
  }

  lemma CommaAssoc(a: string, b: string, t: string)
    ensures a + "," + b + t == a + ([','] + (b + t))
  {
  }

  lemma DropFirst(c: char, s: string)
    ensures ([c] + s)[1..] == s
  {
  }

  lemma StringsCons(row: seq<Cell>)
    requires |row| > 1
    ensures Strings(row) == [CellString(row[0])] + Strings(row[1..])
  {
  }

  lemma RecordCons(row: seq<Cell>, t: string)
    requires |row| > 1 && (t == [] || t[0] == '\n')
    requires ParseRecord(Line(row[1..]) + t) == (Strings(row[1..]), t)
    ensures ParseRecord(Line(row) + t) == (Strings(row), t)
  {
    var tail := [','] + (Line(row[1..]) + t);
    LineCons(row, t);
    StringsCons(row);
    DropFirst(',', Line(row[1..]) + t);
    FieldRoundTrip(row[0], tail);
    RecordStep(Line(row) + t, CellString(row[0]), tail, Strings(row[1..]), t);
  }

  /** A record line followed by nothing or a line break reads back as its cells' texts. */
  lemma {:induction false} RecordRoundTrip(row: seq<Cell>, t: string)
    requires |row| > 0
    requires t == [] || t[0] == '\n'
    ensures ParseRecord(Line(row) + t) == (Strings(row), t)
  {
    if |row| == 1 {
      assert ParseField(Line(row) + t) == (CellString(row[0]), t) by {
        assert EscapeAll(row) == [Escape(row[0])];
        FieldRoundTrip(row[0], t);
      }
      RecordEnd(Line(row) + t, CellString(row[0]), t);
      assert Strings(row) == [CellString(row[0])];
    } else {
      RecordRoundTrip(row[1..], t);
      RecordCons(row, t);
    }
  }

  lemma JoinCons(sep: string, items: seq<string>)
    requires |items| > 1
    ensures Join(sep, items) == items[0] + (sep + Join(sep, items[1..]))
  {
  }

  lemma CsvLinesCons(rows: seq<seq<Cell>>)
    requires |rows| > 1
    ensures Csv(rows) == Line(rows[0]) + (['\n'] + Csv(rows[1..]))
  {
    var lines := Lines(rows);
    assert lines == [Line(rows[0])] + Lines(rows[1..]);
    assert lines[1..] == Lines(rows[1..]);
    JoinCons("\n", lines);
  }

  lemma TextsCons(rows: seq<seq<Cell>>)
    requires |rows| > 1
    ensures Texts(rows) == [Strings(rows[0])] + Texts(rows[1..])
  {
  }

  lemma CsvCons(rows: seq<seq<Cell>>)
    requires |rows| > 1 && |rows[0]| > 0
    requires ParseCsv(Csv(rows[1..])) == Texts(rows[1..])
    ensures ParseCsv(Csv(rows)) == Texts(rows)
  {
    var tail := ['\n'] + Csv(rows[1..]);
    CsvLinesCons(rows);
    TextsCons(rows);
    DropFirst('\n', Csv(rows[1..]));
    RecordRoundTrip(rows[0], tail);
  }

  /** Reading an export back gives, row by row and cell by cell, the texts that were written,
      whatever the cells contain: the quoting keeps commas, quotes and line breaks inside their
      cells. */
  lemma {:induction false} CsvRoundTrip(rows: seq<seq<Cell>>)
    requires |rows| > 0
    requires forall i :: 0 <= i < |rows| ==> |rows[i]| > 0
    ensures ParseCsv(Csv(rows)) == Texts(rows)
  {
    if |rows| == 1 {
      assert Csv(rows) == Line(rows[0]) + [] by {
        assert Lines(rows) == [Line(rows[0])];
      }
      RecordRoundTrip(rows[0], []);
      assert Texts(rows) == [Strings(rows[0])];
    } else {
      CsvRoundTrip(rows[1..]);
      CsvCons(rows);
    }
  }

  // ---------------------------------------------------------------------------------------
  // File names
  // ---------------------------------------------------------------------------------------

  /** `s.split('T')[0]`: the text before the first `T`. */
  function BeforeT(s: string): (r: string)
    ensures 'T' !in r
    ensures |r| <= |s| && r == s[..|r|]
    ensures |r| < |s| ==> s[|r|] == 'T'
  {
    if s == [] || s[0] == 'T' then [] else [s[0]] + BeforeT(s[1..])
  }

  /** `buildFilename`: `isoNow` is `new Date().toISOString()`. */
  function BuildFilename(prefix: string, isoNow: string, ext: string): string
  {
    prefix + "_" + BeforeT(isoNow) + "." + ext
  }

  /** The file name is the prefix, an underscore, the calendar-date part of the timestamp (all
      of it up to the time separator) and the extension. */
  lemma BuildFilenameMeaning(prefix: string, date: string, time: string, ext: string)
    requires 'T' !in date
    ensures BuildFilename(prefix, date + "T" + time, ext) == prefix + "_" + date + "." + ext
  {
    var s := date + "T" + time;
    var r := BeforeT(s);
    assert s[|date|] == 'T';
    assert |r| == |date|;
    assert s[..|date|] == date;
  }

  // ---------------------------------------------------------------------------------------
  // Segment summary
  // ---------------------------------------------------------------------------------------

  datatype Segment = Segment(
    id: string,
    legend: string,
    rangeMin: real,
    rangeMax: real,
    clientCount: int,
    clientPercent: real,
    clientPercentAccum: real,
    volume: real,
    volumePercent: real,
    volumePercentAccum: real,
    avgTicket: real,
    strategy: Option<string>)

  datatype Summary = Summary(segments: seq<Segment>, unit: string, totalClients: int, totalVolume: real)

  function SummaryHeader(unit: string): (r: seq<Cell>)
    ensures |r| == 12
  {
    [Text("Segmento"), Text("Descripción"), Text("Clientes"), Text("% Clientes"), Text("% Clientes Acum."),
     Text("Volumen (" + unit + ")"), Text("% Volumen"), Text("% Volumen Acum."),
     Text("Ticket Promedio (" + unit + ")"), Text("Rango Mín (" + unit + ")"), Text("Rango Máx (" + unit + ")"),
     Text("Estrategia")]
  }

  function SegmentRow(format: Formatters.NumberFormat, s: Segment): (r: seq<Cell>)
    ensures |r| == 12
  {
    [Text(s.id), Text(s.legend), Count(s.clientCount),
     Text(Formatters.FormatPercent(format, s.clientPercent, 2)),
     Text(Formatters.FormatPercent(format, s.clientPercentAccum, 2)),
     Text(format(Finite(s.volume), 0)),
     Text(Formatters.FormatPercent(format, s.volumePercent, 2)),
     Text(Formatters.FormatPercent(format, s.volumePercentAccum, 2)),
     Text(format(Finite(s.avgTicket), 0)),
     Text(format(Finite(s.rangeMin), 0)),
     Text(format(Finite(s.rangeMax), 0)),
     Text(if s.strategy.Some? then s.strategy.value else "")]
  }

  /** The TOTAL row; the average ticket is a JS division, NaN or infinite with no clients. */
  function TotalRow(format: Formatters.NumberFormat, data: Summary): (r: seq<Cell>)
    ensures |r| == 12
  {
    [Text("TOTAL"), Text(""), Count(data.totalClients), Text("100.00%"), Text(""),
     Text(format(Finite(data.totalVolume), 0)), Text("100.00%"), Text(""),
     Text(format(Divide(data.totalVolume, data.totalClients as real), 0)),
     Text(""), Text(""), Text("")]
  }

  function SegmentRows(format: Formatters.NumberFormat, segments: seq<Segment>): (r: seq<seq<Cell>>)
    ensures |r| == |segments| && forall i :: 0 <= i < |segments| ==> r[i] == SegmentRow(format, segments[i])
  {
    if segments == [] then [] else [SegmentRow(format, segments[0])] + SegmentRows(format, segments[1..])
  }

  /** The rows of `exportSegmentsSummaryCSV`, header included. */
  function SummaryRows(format: Formatters.NumberFormat, data: Summary): seq<seq<Cell>>
  {
    [SummaryHeader(data.unit)] + SegmentRows(format, data.segments) + [TotalRow(format, data)]
  }

  lemma Framed<T>(first: T, middle: seq<T>, last: T)
    ensures var r := [first] + middle + [last];
      && |r| == |middle| + 2 && r[0] == first && r[|r| - 1] == last
      && forall i :: 0 <= i < |middle| ==> r[i + 1] == middle[i]
  {
  }

  /** The summary is the header, one row per segment in the segments' order, then the TOTAL
      row, and every row has twelve cells. */
  lemma SummaryShape(format: Formatters.NumberFormat, data: Summary)
    ensures var rows := SummaryRows(format, data);
      && |rows| == |data.segments| + 2
      && (forall i :: 0 <= i < |rows| ==> |rows[i]| == 12)
      && rows[0] == SummaryHeader(data.unit)
      && (forall i :: 0 <= i < |data.segments| ==> rows[i + 1] == SegmentRow(format, data.segments[i]))
      && rows[|rows| - 1] == TotalRow(format, data)
  {
    var header, body, total := SummaryHeader(data.unit), SegmentRows(format, data.segments), TotalRow(format, data);
    Framed(header, body, total);
    var rows := [header] + body + [total];
    forall i | 0 <= i < |rows|
      ensures |rows[i]| == 12
    {
      if 0 < i < |rows| - 1 {
        assert rows[i] == body[i - 1];
      }
    }
  }

  /** The summary file reads back as its rows: each segment's id, label and strategy come back
      as written, whatever commas, quotes or line breaks they contain. */
  lemma SummaryReadsBack(format: Formatters.NumberFormat, data: Summary)
    ensures ParseCsv(Csv(SummaryRows(format, data))) == Texts(SummaryRows(format, data))
  {
    SummaryShape(format, data);
    CsvRoundTrip(SummaryRows(format, data));
  }

  // ---------------------------------------------------------------------------------------
  // Client list
  // ---------------------------------------------------------------------------------------

  datatype SegmentClient = SegmentClient(
    clientId: string,
    clientName: string,
    gerencia: string,
    jefatura: string,
    ruta: string,
    canal: string,
    volume: real,
    activeMonths: int,
    topProduct: Option<string>)

  function ClientsHeader(unit: string): (r: seq<Cell>)
    ensures |r| == 12
  {
    [Text("Segmento"), Text("Descripción Segmento"), Text("Ranking Segmento"), Text("ID Cliente (Matriz)"),
     Text("Nombre Cliente"), Text("Canal"), Text("Gerencia"), Text("Jefatura"), Text("Ruta"),
     Text("Volumen (" + unit + ")"), Text("Meses Activos"), Text("Producto Principal")]
  }

  /** The row of the client at position `idx` of its segment. */
  function ClientRow(format: Formatters.NumberFormat, s: Segment, idx: nat, c: SegmentClient): (r: seq<Cell>)
    ensures |r| == 12
  {
    [Text(s.id), Text(s.legend), Count(idx + 1), Text(c.clientId), Text(c.clientName), Text(c.canal),
     Text(c.gerencia), Text(c.jefatura), Text(c.ruta), Text(format(Finite(c.volume), 0)),
     Count(c.activeMonths), Text(if c.topProduct.Some? then c.topProduct.value else "")]
  }

  /** `clientsPerSegment.get(segment.id) ?? []`. */
  function ClientsOf(clientsPerSegment: map<string, seq<SegmentClient>>, s: Segment): seq<SegmentClient>
  {
    if s.id in clientsPerSegment then clientsPerSegment[s.id] else []
  }

  /** The rows of one segment, from its first `n` clients. */
  function SegmentClientRows(format: Formatters.NumberFormat, s: Segment, clients: seq<SegmentClient>, n: nat): seq<seq<Cell>>
    requires n <= |clients|
  {
    if n == 0 then [] else SegmentClientRows(format, s, clients, n - 1) + [ClientRow(format, s, n - 1, clients[n - 1])]
  }

  /** The data rows of `exportClientsCSV`, from the first `n` segments. */
  function ClientRows(format: Formatters.NumberFormat, segments: seq<Segment>, clientsPerSegment: map<string, seq<SegmentClient>>, n: nat): seq<seq<Cell>>
    requires n <= |segments|
  {
    if n == 0 then []
    else
      var s := segments[n - 1];
      var clients := ClientsOf(clientsPerSegment, s);
      ClientRows(format, segments, clientsPerSegment, n - 1) + SegmentClientRows(format, s, clients, |clients|)
  }

  /** A segment's block has one row per client, in the client order, ranked from 1. */
  lemma {:induction false} SegmentClientRowsRanked(format: Formatters.NumberFormat, s: Segment, clients: seq<SegmentClient>, n: nat)
    requires n <= |clients|
    ensures var rows := SegmentClientRows(format, s, clients, n);
      && |rows| == n
      && forall j :: 0 <= j < n ==> rows[j] == ClientRow(format, s, j, clients[j])
  {
    if n > 0 {
      SegmentClientRowsRanked(format, s, clients, n - 1);
    }
  }

  /** The client list is the segments' blocks one after another: the ranks restart at 1 in
      every segment, and a segment without an entry in the map contributes no row. */
  lemma ClientRowsBlocks(format: Formatters.NumberFormat, segments: seq<Segment>, clientsPerSegment: map<string, seq<SegmentClient>>, n: nat)
    requires 0 < n <= |segments|
    ensures var before := ClientRows(format, segments, clientsPerSegment, n - 1);
      var clients := ClientsOf(clientsPerSegment, segments[n - 1]);
      var rows := ClientRows(format, segments, clientsPerSegment, n);
      && |rows| == |before| + |clients|
      && rows[..|before|] == before
      && (forall j :: 0 <= j < |clients| ==> rows[|before| + j] == ClientRow(format, segments[n - 1], j, clients[j]) && rows[|before| + j][2] == Count(j + 1))
      && (segments[n - 1].id !in clientsPerSegment ==> rows == before)
  {
    var clients := ClientsOf(clientsPerSegment, segments[n - 1]);
    SegmentClientRowsRanked(format, segments[n - 1], clients, |clients|);
  }

  /** `exportClientsCSV`'s row construction: a loop over the segments and, inside it, over the
      segment's clients. */
  method BuildClientRows(format: Formatters.NumberFormat, segments: seq<Segment>, clientsPerSegment: map<string, seq<SegmentClient>>)
    returns (rows: seq<seq<Cell>>)
    ensures rows == ClientRows(format, segments, clientsPerSegment, |segments|)
  {
    rows := [];
    var k := 0;
    while k < |segments|
      invariant 0 <= k <= |segments|
      invariant rows == ClientRows(format, segments, clientsPerSegment, k)
    {
      var segment := segments[k];
      var clients := if segment.id in clientsPerSegment then clientsPerSegment[segment.id] else [];
      var idx := 0;
      ghost var start := rows;
      while idx < |clients|
        invariant 0 <= idx <= |clients|
        invariant rows == start + SegmentClientRows(format, segment, clients, idx)
      {
        rows := rows + [ClientRow(format, segment, idx, clients[idx])];
        idx := idx + 1;
      }
      k := k + 1;
    }
  }

  /** The client export: the header, then the client rows. */
  method ClientsCsv(format: Formatters.NumberFormat, segments: seq<Segment>, clientsPerSegment: map<string, seq<SegmentClient>>, unit: string)
    returns (csv: string)
    ensures csv == Csv([ClientsHeader(unit)] + ClientRows(format, segments, clientsPerSegment, |segments|))
  {
    var rows := BuildClientRows(format, segments, clientsPerSegment);
    csv := Csv([ClientsHeader(unit)] + rows);
  }
}
